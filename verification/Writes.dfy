/**
 Writing rules. `SetRules` plans every write before storing any; the theorems state its exact effect on stored rules and
 that it gives nobody an action its author lacked.
 */
module Writes {
  import opened Options
  import opened AccessModel
  import opened Evaluator
  import opened AccessStore
  import opened Reach
  import opened RuleRows
  import opened CheckWords
  import opened WhatIf

  datatype Targets = Targets(userIDs: seq<Id>, roleIDs: seq<Id>)

  /** Every target, people first. */
  function Each(to: Targets): (out: seq<Target>)
    ensures |out| == |to.userIDs| + |to.roleIDs|
  {
    seq(|to.userIDs|, i requires 0 <= i < |to.userIDs| => Person(to.userIDs[i]))
    + seq(|to.roleIDs|, i requires 0 <= i < |to.roleIDs| => Role(to.roleIDs[i]))
  }

  datatype RuleWrite = RuleWrite(key: Key, row: Row)

  // ------------------------------------------------------------------ who may write what

  /** Whether someone holds an action on an entity, its own rules included. */
  predicate Holds(s: Store, view: Option<Id>, u: Id, on: Resource, a: Action) {
    match on.kind
    case AreaKind => DecideArea(s, view, u, on.id, a, true).allowed
    case MachineKind => MachineView(s, view, u, on.id, a, false).held
    case DocKind => Can(s, view, u, on.id, a)
    case _ => HasPermission(s, view, u, WorkspaceOfEntity(s, on), a, on)
  }

  /** An entity the actor can't open is not found. */
  function RequireOpens(s: Store, view: Option<Id>, actor: Id, on: Resource): Option<Error> {
    if on.kind == MachineKind then
      if MachineView(s, view, actor, on.id, MachinesSee, false).seen then None else Some(NotFound)
    else if on.kind in {ProjectKind, FolderKind, PlayKind, StackKind, ChannelKind} then
      match EntityOf(s, on)
      case Err(e) => Some(e)
      case Ok(e) => if AnswerFor(s, view, actor, e, e.open, true).allowed then None else Some(NotFound)
    else None
  }

  function CanManage(s: Store, view: Option<Id>, actor: Id, on: Resource): Result<bool> {
    match on.kind
    case AreaKind => Ok(InstanceOwner(s, view, actor).Some?)
    case MachineKind => Ok(Holds(s, view, actor, on, MACHINES_WRITE))
    case ChannelKind =>
      var opens := RequireOpens(s, view, actor, on);
      if opens.Some? then Err(opens.value)
      else if WorkspaceOfEntity(s, on) == NO_ID then Err(NotFound)
      else Ok(Holds(s, view, actor, on, CHANNELS_WRITE))
    case PlayKind => Ok(Holds(s, view, actor, on, PLAYS_WRITE))
    case ProjectKind => Ok(Holds(s, view, actor, on, PROJECTS_ACCESS))
    case FolderKind => Ok(Holds(s, view, actor, on, PERMISSIONS_WRITE))
    case StackKind => Ok(Holds(s, view, actor, on, STACKS_WRITE))
    case _ => Ok(Can(s, view, actor, on.id, PERMISSIONS_WRITE))
  }

  predicate MaySet(kind: Kind, a: Action) {
    && (a == ProjectsOpen ==> kind == ProjectKind)
    && (a == MachinesSee ==> kind == MachineKind)
    && match kind
       case PlayKind => a in PlayActions()
       case ProjectKind => a in ProjectActions()
       case FolderKind => a in DocActions()
       case StackKind => a in StackActions()
       case ChannelKind => a in ChannelActions()
       case MachineKind => a in MachineActions()
       case _ => true
  }

  /** A write missing what it needs, or setting what the entity's rules may not. */
  function CheckWrite(actor: Id, kind: Kind, ids: seq<Id>, to: Targets, actions: seq<Action>): Option<Error> {
    if actor == NO_ID then Some(Unauthorized)
    else if ids == [] || Each(to) == [] || actions == [] then Some(Invalid)
    else if kind == WorkspaceKind then Some(Invalid)
    else if forall a :: a in actions ==> MaySet(kind, a) then None
    else Some(Invalid)
  }

  function CheckArea(s: Store, on: Resource, actions: seq<Action>): Option<Error> {
    if on.kind != AreaKind then None
    else
      var area := AreaWith(s.areas, on.id);
      if area.None? then Some(NotFound)
      else if forall a :: a in actions ==> a in area.value.actions then None
      else Some(Invalid)
  }

  function RequireRolesOf(s: Store, on: Resource, roleIDs: seq<Id>): Option<Error> {
    var anywhere := on.kind == AreaKind || on.kind == MachineKind;
    if forall r :: r in roleIDs ==> r in s.roles && (anywhere || s.roles[r].workspaceID == WorkspaceOfEntity(s, on))
    then None
    else Some(NotFound)
  }

  // ------------------------------------------------------------------ planning

  /** Whether a move allows the action, or lifts a Deny on it. */
  predicate Gives(from: Row, to: Row, a: Action) {
    (a in to.allow && a !in from.allow) || (a in from.deny && a !in to.deny)
  }

  function MoveAll(r: Row, actions: seq<Action>, st: WriteState): Row
    decreases |actions|
  {
    if actions == [] then r else MoveAll(MoveTo(r, actions[0], st), actions[1..], st)
  }

  function NextRow(s: Store, view: Option<Id>, actor: Id, on: Resource, r: Row, actions: seq<Action>,
                   st: WriteState): Result<Row>
    decreases |actions|
  {
    if actions == [] then Ok(r)
    else
      var moved := MoveTo(r, actions[0], st);
      if Gives(r, moved, actions[0]) && !Holds(s, view, actor, on, actions[0]) then Err(Forbidden)
      else NextRow(s, view, actor, on, moved, actions[1..], st)
  }

  /** Writes already planned, ahead of the rest of the plan. */
  function Before(planned: seq<RuleWrite>, rest: Result<seq<RuleWrite>>): Result<seq<RuleWrite>> {
    if rest.Err? then rest else Ok(planned + rest.value)
  }

  lemma BeforeAppends(planned: seq<RuleWrite>, more: seq<RuleWrite>, rest: Result<seq<RuleWrite>>)
    ensures Before([], rest) == rest
    ensures Before(planned, Before(more, rest)) == Before(planned + more, rest)
    ensures Before(planned, Ok([])) == Ok(planned)
  {
    assert planned + [] == planned;
    if rest.Ok? {
      assert [] + rest.value == rest.value;
      assert planned + (more + rest.value) == planned + more + rest.value;
    }
  }

  /** Each target's next rule on one entity; a Fallback where no rule is changes nothing and plans no write. */
  function PlanTargets(s: Store, view: Option<Id>, actor: Id, on: Resource, targets: seq<Target>, actions: seq<Action>,
                       st: WriteState): Result<seq<RuleWrite>> {
    if targets == [] then Ok([])
    else
      var k := Key(on, targets[0]);
      var next := NextRow(s, view, actor, on, RowAt(s.rules, k), actions, st);
      if next.Err? then Err(next.error)
      else
        var here := if k in s.rules || next.value != EMPTY_ROW then [RuleWrite(k, next.value)] else [];
        Before(here, PlanTargets(s, view, actor, on, targets[1..], actions, st))
  }

  /** What refuses a write on one entity before its rules are looked at. */
  function Guard(s: Store, view: Option<Id>, actor: Id, on: Resource, to: Targets,
                 actions: seq<Action>): Option<Error> {
    var opens := RequireOpens(s, view, actor, on);
    if opens.Some? then opens
    else
      var manages := CanManage(s, view, actor, on);
      if manages.Err? then Some(manages.error)
      else if !manages.value then Some(Forbidden)
      else
        var area := CheckArea(s, on, actions);
        if area.Some? then area else RequireRolesOf(s, on, to.roleIDs)
  }

  function PlanRules(s: Store, view: Option<Id>, actor: Id, on: Resource, to: Targets, actions: seq<Action>,
                     st: WriteState): Result<seq<RuleWrite>> {
    var refused := Guard(s, view, actor, on, to, actions);
    if refused.Some? then Err(refused.value) else PlanTargets(s, view, actor, on, Each(to), actions, st)
  }

  function PlanAll(s: Store, view: Option<Id>, actor: Id, kind: Kind, ids: seq<Id>, to: Targets, actions: seq<Action>,
                   st: WriteState): Result<seq<RuleWrite>> {
    if ids == [] then Ok([])
    else
      var first := PlanRules(s, view, actor, Resource(kind, ids[0]), to, actions, st);
      if first.Err? then first else Before(first.value, PlanAll(s, view, actor, kind, ids[1..], to, actions, st))
  }

  /** The whole plan of one call, or why it is refused. */
  function Plan(s: Store, view: Option<Id>, actor: Id, kind: Kind, ids: seq<Id>, to: Targets, actions: seq<Action>,
                st: WriteState): Result<seq<RuleWrite>> {
    var refused := CheckWrite(actor, kind, ids, to, actions);
    if refused.Some? then Err(refused.value) else PlanAll(s, view, actor, kind, ids, to, actions, st)
  }

  // ------------------------------------------------------------------ storing

  /** The accounts and the roles a stored rule may name. */
  datatype Known = Known(people: set<Id>, roles: set<Id>)

  function KnownTo(s: Store): Known {
    Known(s.accounts, s.roles.Keys)
  }

  predicate Exists(known: Known, t: Target) {
    if t.Person? then t.id in known.people else t.id in known.roles
  }

  /** Why one write is not stored: an empty row deletes a rule that is not there, or another names nobody there is. */
  function StoreRefusal(known: Known, rules: map<Key, Row>, w: RuleWrite): Option<Error> {
    if w.row == EMPTY_ROW then if w.key in rules then None else Some(NotFound)
    else if Exists(known, w.key.target) then None else Some(Conflict)
  }

  /** Storing writes one by one, each on its own, up to the first refused. */
  function StoreAll(known: Known, rules: map<Key, Row>, writes: seq<RuleWrite>): (map<Key, Row>, Option<Error>)
    decreases |writes|
  {
    if writes == [] then (rules, None)
    else if StoreRefusal(known, rules, writes[0]).Some? then (rules, StoreRefusal(known, rules, writes[0]))
    else StoreAll(known, Stored(rules, writes[0].key, writes[0].row), writes[1..])
  }

  ghost predicate NonEmptyRows(rules: map<Key, Row>) {
    forall k :: k in rules ==> rules[k] != EMPTY_ROW
  }

  // ------------------------------------------------------------------ who may write, in terms of what is stored

  lemma InsideInWords(s: Store, view: Option<Id>, u: Id, on: Resource, a: Action)
    requires Kept(s) && on.kind in {DocKind, FolderKind, PlayKind, ProjectKind, StackKind, ChannelKind}
    requires !(on.kind == ChannelKind && a == CHANNELS_READ)
    ensures Holds(s, view, u, on, a) <==>
            u != NO_ID && HeldThere(s, view, u, HomeOf(s, on), ProjectAround(s, on), a, on)
  {
    assert WorkspaceOfEntity(s, on) == HomeOf(s, on) && ProjectOf(s, on) == ProjectAround(s, on);
    CheckInWords(s, view, u, HomeOf(s, on), ProjectAround(s, on), a, on);
  }

  /** On every kind of entity an action is held as the stored rules, roles and memberships say. */
  lemma HoldsInWords(s: Store, view: Option<Id>, u: Id, on: Resource, a: Action)
    requires Kept(s) && on.kind != WorkspaceKind
    ensures Holds(s, view, u, on, a) <==> HeldOn(s, view, u, on, a)
  {
    if on.kind == AreaKind {
      AreaFromWhatIsStored(s, view, u, on.id, a);
    } else if on.kind == MachineKind {
      MachineFromWhatIsStored(s, view, u, on.id, a);
    } else if on.kind == ChannelKind && a == CHANNELS_READ {
      ChannelReadInWords(s, view, u, HomeOf(s, on), on.id);
    } else {
      InsideInWords(s, view, u, on, a);
    }
  }

  /** The actor opens the entity: it exists, and they hold what shows it. Docs and areas take no opening. */
  ghost predicate Opens(s: Store, view: Option<Id>, actor: Id, on: Resource) {
    match on.kind
    case MachineKind => Sees(s, view, actor, on.id)
    case ProjectKind => on.id in s.projects && HeldOn(s, view, actor, on, Member)
    case FolderKind =>
      on.id in s.folders && s.folders[on.id].projectID != NO_ID && HeldOn(s, view, actor, on, Member)
    case PlayKind => HeldOn(s, view, actor, on, PLAYS_READ)
    case StackKind =>
      && on.id in s.stacks && s.stacks[on.id].projectID != NO_ID && s.stacks[on.id].baseID == NO_ID
      && HeldOn(s, view, actor, on, STACKS_READ)
    case ChannelKind => on.id in s.channels && HeldOn(s, view, actor, on, CHANNELS_READ)
    case _ => true
  }

  /** The actor holds the action that manages an entity of its kind; an area is the instance Owner's to manage. */
  ghost predicate Manages(s: Store, view: Option<Id>, actor: Id, on: Resource) {
    match on.kind
    case AreaKind => IsInstanceOwner(s, view, actor)
    case MachineKind => HeldOn(s, view, actor, on, MACHINES_WRITE)
    case ChannelKind => HeldOn(s, view, actor, on, CHANNELS_WRITE)
    case PlayKind => HeldOn(s, view, actor, on, PLAYS_WRITE)
    case ProjectKind => HeldOn(s, view, actor, on, PROJECTS_ACCESS)
    case StackKind => HeldOn(s, view, actor, on, STACKS_WRITE)
    case _ => HeldOn(s, view, actor, on, PERMISSIONS_WRITE)
  }

  /** There is such an area, and every action is among its own; anything but an area takes any. */
  ghost predicate AreaTakes(s: Store, on: Resource, actions: seq<Action>) {
    on.kind == AreaKind ==>
      exists i: nat :: FirstArea(s.areas, on.id, i) && forall a :: a in actions ==> a in s.areas[i].actions
  }

  /** Every role named exists, and is of the entity's workspace unless it lies in none. */
  predicate RolesOfItsWorkspace(s: Store, on: Resource, roleIDs: seq<Id>) {
    forall r :: r in roleIDs ==>
                  r in s.roles && (on.kind in {AreaKind, MachineKind} || s.roles[r].workspaceID == HomeOf(s, on))
  }

  lemma OpensInWords(s: Store, view: Option<Id>, actor: Id, on: Resource)
    requires Kept(s) && actor != NO_ID
    ensures RequireOpens(s, view, actor, on).None? <==> Opens(s, view, actor, on)
    ensures var refused := RequireOpens(s, view, actor, on);
            refused.None? || refused == Some(NotFound) || (on.kind == StackKind && refused == Some(Invalid))
  {
    if on.kind == MachineKind {
      MachineFromWhatIsStored(s, view, actor, on.id, MachinesSee);
    } else if on.kind in {ProjectKind, FolderKind} {
      HoldsInWords(s, view, actor, on, Member);
    } else if on.kind == PlayKind {
      HoldsInWords(s, view, actor, on, PLAYS_READ);
    } else if on.kind == StackKind {
      HoldsInWords(s, view, actor, on, STACKS_READ);
    } else if on.kind == ChannelKind {
      HoldsInWords(s, view, actor, on, CHANNELS_READ);
    }
  }

  lemma ManagesInWords(s: Store, view: Option<Id>, actor: Id, on: Resource)
    requires Kept(s) && actor != NO_ID && on.kind != WorkspaceKind && Opens(s, view, actor, on)
    ensures CanManage(s, view, actor, on) == Ok(Manages(s, view, actor, on))
  {
    OpensInWords(s, view, actor, on);
    InstanceOwnerInWords(s, view, actor);
    match on.kind
    case AreaKind =>
    case MachineKind => HoldsInWords(s, view, actor, on, MACHINES_WRITE);
    case ChannelKind => HoldsInWords(s, view, actor, on, CHANNELS_WRITE);
    case PlayKind => HoldsInWords(s, view, actor, on, PLAYS_WRITE);
    case ProjectKind => HoldsInWords(s, view, actor, on, PROJECTS_ACCESS);
    case StackKind => HoldsInWords(s, view, actor, on, STACKS_WRITE);
    case _ => HoldsInWords(s, view, actor, on, PERMISSIONS_WRITE);
  }

  lemma TakesInWords(s: Store, on: Resource, actions: seq<Action>, roleIDs: seq<Id>)
    requires on.kind != WorkspaceKind
    ensures CheckArea(s, on, actions).None? <==> AreaTakes(s, on, actions)
    ensures RequireRolesOf(s, on, roleIDs).None? <==> RolesOfItsWorkspace(s, on, roleIDs)
  {
    if on.kind !in {AreaKind, MachineKind} { assert WorkspaceOfEntity(s, on) == HomeOf(s, on); }
  }

  /**
   What refuses a write on one entity before its rules are looked at: one the actor does not open is not found, one
   they open and do not manage is forbidden, and then the area's actions and the roles' workspace are asked.
   */
  lemma GuardInWords(s: Store, view: Option<Id>, actor: Id, on: Resource, to: Targets, actions: seq<Action>)
    requires Kept(s) && actor != NO_ID && on.kind != WorkspaceKind
    ensures var refused := Guard(s, view, actor, on, to, actions);
            && (refused.None? <==>
                && Opens(s, view, actor, on) && Manages(s, view, actor, on)
                && AreaTakes(s, on, actions) && RolesOfItsWorkspace(s, on, to.roleIDs))
            && (Opens(s, view, actor, on) && !Manages(s, view, actor, on) ==> refused == Some(Forbidden))
            && (!Opens(s, view, actor, on) ==>
                  refused == Some(NotFound) || (on.kind == StackKind && refused == Some(Invalid)))
  {
    OpensInWords(s, view, actor, on);
    TakesInWords(s, on, actions, to.roleIDs);
    if Opens(s, view, actor, on) { ManagesInWords(s, view, actor, on); }
  }

  /** The access service's stored rules and the one call that writes them. */
  class RuleWriter {
    var store: Store

    constructor (s: Store)
      ensures store == s
    {
      store := s;
    }

    ghost predicate Valid()
      reads this
    {
      DisjointRules(store.rules) && NonEmptyRows(store.rules)
    }

    /** The actor's next row for one target, one action at a time. */
    method NextRule(view: Option<Id>, actor: Id, on: Resource, k: Key, actions: seq<Action>, st: WriteState)
      returns (r: Result<Row>)
      ensures r == NextRow(store, view, actor, on, RowAt(store.rules, k), actions, st)
    {
      var row := RowAt(store.rules, k);
      for i := 0 to |actions|
        invariant NextRow(store, view, actor, on, row, actions[i..], st) ==
                  NextRow(store, view, actor, on, RowAt(store.rules, k), actions, st)
      {
        assert actions[i..][1..] == actions[i+1..];
        var moved := MoveTo(row, actions[i], st);
        if Gives(row, moved, actions[i]) && !Holds(store, view, actor, on, actions[i]) {
          return Err(Forbidden);
        }
        row := moved;
      }
      return Ok(row);
    }

    method PlanOn(view: Option<Id>, actor: Id, on: Resource, to: Targets, actions: seq<Action>, st: WriteState)
      returns (r: Result<seq<RuleWrite>>)
      ensures r == PlanRules(store, view, actor, on, to, actions, st)
    {
      var refused := Guard(store, view, actor, on, to, actions);
      if refused.Some? {
        return Err(refused.value);
      }
      var targets := Each(to);
      var out: seq<RuleWrite> := [];
      BeforeAppends([], [], PlanTargets(store, view, actor, on, targets, actions, st));
      for i := 0 to |targets|
        invariant PlanTargets(store, view, actor, on, targets, actions, st) ==
                  Before(out, PlanTargets(store, view, actor, on, targets[i..], actions, st))
      {
        assert targets[i..][1..] == targets[i+1..];
        var k := Key(on, targets[i]);
        var next := NextRule(view, actor, on, k, actions, st);
        if next.Err? {
          return Err(next.error);
        }
        ghost var rest := PlanTargets(store, view, actor, on, targets[i+1..], actions, st);
        BeforeAppends(out, [RuleWrite(k, next.value)], rest);
        BeforeAppends(out, [], rest);
        if k in store.rules || next.value != EMPTY_ROW {
          out := out + [RuleWrite(k, next.value)];
        }
      }
      BeforeAppends(out, [], Ok([]));
      return Ok(out);
    }

    /** The writes on each entity in turn, or the first refusal. */
    method PlanEach(view: Option<Id>, actor: Id, kind: Kind, ids: seq<Id>, to: Targets, actions: seq<Action>,
                    st: WriteState) returns (plan: Result<seq<RuleWrite>>)
      requires Valid()
      ensures plan == PlanAll(store, view, actor, kind, ids, to, actions, st)
    {
      var writes: seq<RuleWrite> := [];
      BeforeAppends([], [], PlanAll(store, view, actor, kind, ids, to, actions, st));
      for i := 0 to |ids|
        invariant PlanAll(store, view, actor, kind, ids, to, actions, st) ==
                  Before(writes, PlanAll(store, view, actor, kind, ids[i..], to, actions, st))
      {
        assert ids[i..][1..] == ids[i+1..];
        var planned := PlanOn(view, actor, Resource(kind, ids[i]), to, actions, st);
        if planned.Err? {
          return Err(planned.error);
        }
        BeforeAppends(writes, planned.value, PlanAll(store, view, actor, kind, ids[i+1..], to, actions, st));
        writes := writes + planned.value;
      }
      BeforeAppends(writes, [], Ok([]));
      plan := Ok(writes);
    }

    /**
     Every write is checked before any is stored: a refused call changes nothing, and an accepted one stores its plan in
     order. Allow and deny stay apart and no empty row is kept, over any run of calls.
     */
    method SetRules(view: Option<Id>, actor: Id, kind: Kind, ids: seq<Id>, to: Targets, actions: seq<Action>,
                    st: WriteState) returns (err: Option<Error>)
      requires Valid()
      modifies this
      ensures Valid()
      ensures var plan := Plan(old(store), view, actor, kind, ids, to, actions, st);
              if plan.Err? then err == Some(plan.error) && store == old(store)
              else
                && (store.rules, err) == StoreAll(KnownTo(old(store)), old(store).rules, plan.value)
                && store == old(store).(rules := store.rules)
      ensures Kept(old(store)) && (err.None? || store != old(store)) ==>
                IsAllowed(old(store), view, actor, kind, ids, to, actions, st)
      ensures Kept(old(store)) && IsForbidden(old(store), view, actor, kind, ids, to, actions, st) ==>
                err == Some(Forbidden) && store == old(store)
    {
      if Kept(store) { PlannedExactlyWhen(store, view, actor, kind, ids, to, actions, st); }
      var plan := PlanCall(view, actor, kind, ids, to, actions, st);
      if plan.Err? {
        return Some(plan.error);
      }
      err := StoreEach(plan.value);
    }

    method PlanCall(view: Option<Id>, actor: Id, kind: Kind, ids: seq<Id>, to: Targets, actions: seq<Action>,
                    st: WriteState) returns (plan: Result<seq<RuleWrite>>)
      requires Valid()
      ensures plan == Plan(store, view, actor, kind, ids, to, actions, st)
      ensures plan.Ok? ==> forall w :: w in plan.value ==> DisjointRow(w.row)
    {
      var refused := CheckWrite(actor, kind, ids, to, actions);
      if refused.Some? {
        return Err(refused.value);
      }
      plan := PlanEach(view, actor, kind, ids, to, actions, st);
      PlannedRows(store, view, actor, kind, ids, to, actions, st);
    }

    /** Planned writes stored one by one, each on its own, up to the first the table refuses. */
    method StoreEach(writes: seq<RuleWrite>) returns (err: Option<Error>)
      requires Valid() && forall w :: w in writes ==> DisjointRow(w.row)
      modifies this
      ensures Valid()
      ensures (store.rules, err) == StoreAll(KnownTo(old(store)), old(store).rules, writes)
      ensures store == old(store).(rules := store.rules)
    {
      for i := 0 to |writes|
        invariant store == old(store).(rules := store.rules)
        invariant Valid()
        invariant StoreAll(KnownTo(store), store.rules, writes[i..]) ==
                  StoreAll(KnownTo(old(store)), old(store).rules, writes)
      {
        assert writes[i..][1..] == writes[i+1..];
        assert writes[i] in writes;
        var w := writes[i];
        var refused := StoreRefusal(KnownTo(store), store.rules, w);
        if refused.Some? {
          return refused;
        }
        store := store.(rules := Stored(store.rules, w.key, w.row));
      }
      return None;
    }
  }

  // ------------------------------------------------------------------ what a plan holds

  lemma {:induction false} MoveAllLands(r: Row, actions: seq<Action>, st: WriteState, b: Action)
    requires DisjointRow(r)
    ensures DisjointRow(MoveAll(r, actions, st))
    ensures RowState(MoveAll(r, actions, st), b) == if b in actions then Moved(RowState(r, b), st) else RowState(r, b)
    decreases |actions|
  {
    if actions != [] {
      MoveToLands(r, actions[0], st, b);
      MoveAllLands(MoveTo(r, actions[0], st), actions[1..], st, b);
    }
  }

  /** Moving again to the same state changes nothing. */
  lemma MoveAllAgain(r: Row, actions: seq<Action>, st: WriteState)
    requires DisjointRow(r)
    ensures MoveAll(MoveAll(r, actions, st), actions, st) == MoveAll(r, actions, st)
  {
    var once := MoveAll(r, actions, st);
    forall b ensures RowState(MoveAll(once, actions, st), b) == RowState(once, b) {
      MoveAllLands(r, actions, st, b);
      MoveAllLands(once, actions, st, b);
    }
    MoveAllLands(r, actions, st, Member);
    MoveAllLands(once, actions, st, Member);
    SameStatesSameRow(MoveAll(once, actions, st), once);
  }

  lemma SameStatesSameRow(r: Row, q: Row)
    requires DisjointRow(r) && DisjointRow(q) && forall b :: RowState(r, b) == RowState(q, b)
    ensures r == q
  {
    assert forall b :: b in r.deny <==> RowState(r, b) == Deny;
    assert forall b :: b in q.deny <==> RowState(q, b) == Deny;
    assert forall b :: b in r.allow <==> RowState(r, b) == Allow;
    assert forall b :: b in q.allow <==> RowState(q, b) == Allow;
  }

  /** A row is planned exactly when the actor holds each action it allows or lifts a Deny on. */
  lemma {:induction false} NextRowIsGuarded(s: Store, view: Option<Id>, actor: Id, on: Resource, r: Row,
                                            actions: seq<Action>, st: WriteState)
    ensures var next := NextRow(s, view, actor, on, r, actions, st);
            && (next.Ok? <==> forall a :: a in actions && Gives(r, MoveTo(r, a, st), a) ==>
                                            Holds(s, view, actor, on, a))
            && next == if next.Ok? then Ok(MoveAll(r, actions, st)) else Err(Forbidden)
    decreases |actions|
  {
    if actions != [] {
      var moved := MoveTo(r, actions[0], st);
      NextRowIsGuarded(s, view, actor, on, moved, actions[1..], st);
      assert forall a :: a in actions <==> a == actions[0] || a in actions[1..];
      assert forall a :: a != actions[0] ==> (Gives(moved, MoveTo(moved, a, st), a) <==> Gives(r, MoveTo(r, a, st), a));
      assert !Gives(moved, MoveTo(moved, actions[0], st), actions[0]);
    }
  }

  /** The writes one entity's targets plan: each target's moved row, wherever there was a rule or there will be one. */
  lemma {:induction false} TargetsPlanned(s: Store, view: Option<Id>, actor: Id, on: Resource, targets: seq<Target>,
                                          actions: seq<Action>, st: WriteState)
    ensures var plan := PlanTargets(s, view, actor, on, targets, actions, st);
            plan.Ok? ==>
              &&
                (forall w :: w in plan.value ==>
                               w.key.on == on && w.key.target in targets &&
                               w.row == MoveAll(RowAt(s.rules, w.key), actions, st)
                               && (w.row == EMPTY_ROW ==> w.key in s.rules))
              && (forall t :: t in targets ==>
                                var k := Key(on, t);
                                && (RuleWrite(k, MoveAll(RowAt(s.rules, k), actions, st)) in plan.value ||
                                    MoveAll(RowAt(s.rules, k), actions, st) == RowAt(s.rules, k) == EMPTY_ROW)
                                && forall a :: a in actions &&
                                               Gives(RowAt(s.rules, k), MoveTo(RowAt(s.rules, k), a, st), a) ==>
                                                 Holds(s, view, actor, on, a))
  {
    if targets != [] {
      NextRowIsGuarded(s, view, actor, on, RowAt(s.rules, Key(on, targets[0])), actions, st);
      TargetsPlanned(s, view, actor, on, targets[1..], actions, st);
      assert forall t :: t in targets <==> t == targets[0] || t in targets[1..];
    }
  }

  /** Whether a call names a rule: its entity, and its person or role. */
  predicate Names(kind: Kind, ids: seq<Id>, targets: seq<Target>, k: Key) {
    k.on.kind == kind && k.on.id in ids && k.target in targets
  }

  ghost predicate Authorised(s: Store, view: Option<Id>, actor: Id, k: Key, actions: seq<Action>, st: WriteState) {
    forall a :: a in actions && Gives(RowAt(s.rules, k), MoveTo(RowAt(s.rules, k), a, st), a) ==>
                  Holds(s, view, actor, k.on, a)
  }

  lemma {:induction false} AllPlanned(s: Store, view: Option<Id>, actor: Id, kind: Kind, ids: seq<Id>, to: Targets,
                                      actions: seq<Action>, st: WriteState)
    ensures var plan := PlanAll(s, view, actor, kind, ids, to, actions, st);
            plan.Ok? ==>
              &&
                (forall w :: w in plan.value ==>
                               Names(kind, ids, Each(to), w.key) &&
                               w.row == MoveAll(RowAt(s.rules, w.key), actions, st)
                               && (w.row == EMPTY_ROW ==> w.key in s.rules))
              && (forall k :: Names(kind, ids, Each(to), k) ==>
                                && (RuleWrite(k, MoveAll(RowAt(s.rules, k), actions, st)) in plan.value ||
                                    MoveAll(RowAt(s.rules, k), actions, st) == RowAt(s.rules, k) == EMPTY_ROW)
                                && Authorised(s, view, actor, k, actions, st))
  {
    if ids != [] {
      var on := Resource(kind, ids[0]);
      AllPlanned(s, view, actor, kind, ids[1..], to, actions, st);
      TargetsPlanned(s, view, actor, on, Each(to), actions, st);
      assert forall i :: i in ids <==> i == ids[0] || i in ids[1..];
      var plan := PlanAll(s, view, actor, kind, ids, to, actions, st);
      if plan.Ok? {
        var first := PlanRules(s, view, actor, on, to, actions, st);
        var rest := PlanAll(s, view, actor, kind, ids[1..], to, actions, st);
        forall k | Names(kind, ids, Each(to), k)
          ensures RuleWrite(k, MoveAll(RowAt(s.rules, k), actions, st)) in plan.value ||
                  MoveAll(RowAt(s.rules, k), actions, st) == RowAt(s.rules, k) == EMPTY_ROW
          ensures Authorised(s, view, actor, k, actions, st)
        {
          if k.on.id == ids[0] {
            assert k == Key(on, k.target);
          } else {
            assert Names(kind, ids[1..], Each(to), k);
          }
        }
      }
    }
  }

  lemma PlannedRows(s: Store, view: Option<Id>, actor: Id, kind: Kind, ids: seq<Id>, to: Targets, actions: seq<Action>,
                    st: WriteState)
    requires DisjointRules(s.rules)
    ensures var plan := PlanAll(s, view, actor, kind, ids, to, actions, st);
            plan.Ok? ==> forall w :: w in plan.value ==> DisjointRow(w.row)
  {
    AllPlanned(s, view, actor, kind, ids, to, actions, st);
    var plan := PlanAll(s, view, actor, kind, ids, to, actions, st);
    if plan.Ok? {
      forall w | w in plan.value ensures DisjointRow(w.row) {
        MoveAllLands(RowAt(s.rules, w.key), actions, st, Member);
      }
    }
  }

  // ------------------------------------------------------------------ exactly when a call is planned

  /** The call names the target. */
  predicate IsTarget(to: Targets, t: Target) {
    if t.Person? then t.id in to.userIDs else t.id in to.roleIDs
  }

  lemma InEach(to: Targets, t: Target)
    ensures t in Each(to) <==> IsTarget(to, t)
  {
    var all := Each(to);
    if t.Person? && t.id in to.userIDs {
      var i :| 0 <= i < |to.userIDs| && to.userIDs[i] == t.id;
      assert all[i] == t;
    }
    if t.Role? && t.id in to.roleIDs {
      var i :| 0 <= i < |to.roleIDs| && to.roleIDs[i] == t.id;
      assert all[|to.userIDs| + i] == t;
    }
  }

  /** Moving an action on a rule takes holding it when that would allow the action, or lift a Deny on it. */
  predicate TakesHolding(s: Store, k: Key, a: Action, st: WriteState) {
    || (st == SetAllow && !(k in s.rules && a in s.rules[k].allow))
    || (st in {SetAllow, SetFallback, Lift} && k in s.rules && a in s.rules[k].deny)
  }

  /** The actor holds every action the write would give some target. */
  ghost predicate MayMove(s: Store, view: Option<Id>, actor: Id, on: Resource, to: Targets, actions: seq<Action>,
                          st: WriteState) {
    forall t, a :: IsTarget(to, t) && a in actions && TakesHolding(s, Key(on, t), a, st) ==>
                     HeldOn(s, view, actor, on, a)
  }

  /** The actor may write the rules of one entity: they open and manage it, and hold what the write gives. */
  ghost predicate MayWrite(s: Store, view: Option<Id>, actor: Id, on: Resource, to: Targets, actions: seq<Action>,
                           st: WriteState) {
    && Opens(s, view, actor, on) && Manages(s, view, actor, on)
    && AreaTakes(s, on, actions) && RolesOfItsWorkspace(s, on, to.roleIDs)
    && MayMove(s, view, actor, on, to, actions, st)
  }

  /** What any rule of a kind of entity may set. */
  predicate Settable(kind: Kind, a: Action) {
    match kind
    case PlayKind => a in {PLAYS_READ, PLAYS_RUN, PLAYS_WRITE, PLAYS_DELETE}
    case ChannelKind => a in {CHANNELS_READ, CHANNELS_POST}
    case MachineKind => a in {MachinesSee, MACHINES_DEPLOY, MACHINES_WRITE, MACHINES_DELETE}
    case ProjectKind => a == ProjectsOpen || (a.Grid? && a.area == ProjectArea && a.name < 32)
    case FolderKind => a.Grid? && a.area == ProjectArea && (a.name < 6 || a == PERMISSIONS_WRITE)
    case StackKind => a.Grid? && a.area == ProjectArea && 16 <= a.name < 22
    case _ => a != ProjectsOpen && a != MachinesSee
  }

  lemma SettableIsWhatMayBeSet(kind: Kind, a: Action)
    ensures MaySet(kind, a) <==> Settable(kind, a)
  {
    var all := ProjectAreaActions();
    assert |all| == 32 && forall i :: 0 <= i < 32 ==> all[i] == Grid(ProjectArea, i);
    if a.Grid? && a.area == ProjectArea && a.name < 32 {
      assert all[a.name] == a;
      if a.name < 6 { assert all[..6][a.name] == a; }
      if 16 <= a.name < 18 { assert all[16..18][a.name - 16] == a; }
      if 18 <= a.name < 22 { assert all[18..22][a.name - 18] == a; }
    }
  }

  lemma {:induction false} TargetsExactlyWhen(s: Store, view: Option<Id>, actor: Id, on: Resource, targets: seq<Target>,
                                              actions: seq<Action>, st: WriteState)
    ensures var plan := PlanTargets(s, view, actor, on, targets, actions, st);
            && (plan.Ok? <==> forall t, a :: t in targets && a in actions && TakesHolding(s, Key(on, t), a, st) ==>
                                               Holds(s, view, actor, on, a))
            && (plan.Ok? || plan == Err(Forbidden))
  {
    if targets != [] {
      var k := Key(on, targets[0]);
      NextRowIsGuarded(s, view, actor, on, RowAt(s.rules, k), actions, st);
      assert forall a :: Gives(RowAt(s.rules, k), MoveTo(RowAt(s.rules, k), a, st), a) <==> TakesHolding(s, k, a, st);
      TargetsExactlyWhen(s, view, actor, on, targets[1..], actions, st);
      assert forall t :: t in targets <==> t == targets[0] || t in targets[1..];
    }
  }

  lemma TargetsInWords(s: Store, view: Option<Id>, actor: Id, on: Resource, to: Targets, actions: seq<Action>,
                       st: WriteState)
    requires Kept(s) && on.kind != WorkspaceKind
    ensures PlanTargets(s, view, actor, on, Each(to), actions, st).Ok? <==>
            MayMove(s, view, actor, on, to, actions, st)
  {
    TargetsExactlyWhen(s, view, actor, on, Each(to), actions, st);
    forall a ensures Holds(s, view, actor, on, a) <==> HeldOn(s, view, actor, on, a) {
      HoldsInWords(s, view, actor, on, a);
    }
    forall t ensures t in Each(to) <==> IsTarget(to, t) {
      InEach(to, t);
    }
  }

  lemma RulesExactlyWhen(s: Store, view: Option<Id>, actor: Id, on: Resource, to: Targets, actions: seq<Action>,
                         st: WriteState)
    requires Kept(s) && actor != NO_ID && on.kind != WorkspaceKind
    ensures PlanRules(s, view, actor, on, to, actions, st).Ok? <==> MayWrite(s, view, actor, on, to, actions, st)
    ensures Opens(s, view, actor, on) && !Manages(s, view, actor, on) ==>
              PlanRules(s, view, actor, on, to, actions, st) == Err(Forbidden)
  {
    GuardInWords(s, view, actor, on, to, actions);
    TargetsInWords(s, view, actor, on, to, actions, st);
  }

  lemma {:induction false} AllExactlyWhen(s: Store, view: Option<Id>, actor: Id, kind: Kind, ids: seq<Id>, to: Targets,
                                          actions: seq<Action>, st: WriteState)
    requires Kept(s) && actor != NO_ID && kind != WorkspaceKind
    ensures PlanAll(s, view, actor, kind, ids, to, actions, st).Ok? <==>
            forall id :: id in ids ==> MayWrite(s, view, actor, Resource(kind, id), to, actions, st)
  {
    if ids != [] {
      RulesExactlyWhen(s, view, actor, Resource(kind, ids[0]), to, actions, st);
      AllExactlyWhen(s, view, actor, kind, ids[1..], to, actions, st);
      assert forall id :: id in ids <==> id == ids[0] || id in ids[1..];
    }
  }

  lemma TheRestIsUnmanaged(s: Store, view: Option<Id>, actor: Id, kind: Kind, ids: seq<Id>, to: Targets,
                           actions: seq<Action>, st: WriteState, j: nat)
    requires FirstUnmanaged(s, view, actor, kind, ids, to, actions, st, j) && j > 0
    ensures MayWrite(s, view, actor, Resource(kind, ids[0]), to, actions, st)
    ensures FirstUnmanaged(s, view, actor, kind, ids[1..], to, actions, st, j - 1)
  {
    forall i | 0 <= i < j - 1 ensures MayWrite(s, view, actor, Resource(kind, ids[1..][i]), to, actions, st) {
      assert ids[1..][i] == ids[i + 1];
    }
    assert ids[1..][j - 1] == ids[j];
  }

  /** The first entity that the actor opens and does not manage, after those they may write on, decides the refusal. */
  lemma {:induction false} TheFirstRefuses(s: Store, view: Option<Id>, actor: Id, kind: Kind, ids: seq<Id>, to: Targets,
                                           actions: seq<Action>, st: WriteState, j: nat)
    requires Kept(s) && actor != NO_ID && kind != WorkspaceKind
    requires FirstUnmanaged(s, view, actor, kind, ids, to, actions, st, j)
    ensures PlanAll(s, view, actor, kind, ids, to, actions, st) == Err(Forbidden)
  {
    RulesExactlyWhen(s, view, actor, Resource(kind, ids[0]), to, actions, st);
    if j > 0 {
      TheRestIsUnmanaged(s, view, actor, kind, ids, to, actions, st, j);
      TheFirstRefuses(s, view, actor, kind, ids[1..], to, actions, st, j - 1);
    }
  }

  /** Entity `j` is the first the actor may not write on: they open it and do not manage it. */
  ghost predicate FirstUnmanaged(s: Store, view: Option<Id>, actor: Id, kind: Kind, ids: seq<Id>, to: Targets,
                                 actions: seq<Action>, st: WriteState, j: nat) {
    && j < |ids|
    && (forall i :: 0 <= i < j ==> MayWrite(s, view, actor, Resource(kind, ids[i]), to, actions, st))
    && Opens(s, view, actor, Resource(kind, ids[j])) && !Manages(s, view, actor, Resource(kind, ids[j]))
  }

  /** A call naming somebody to act, an entity, a target and an action, all of which the kind's rules may set. */
  predicate Asks(actor: Id, kind: Kind, ids: seq<Id>, to: Targets, actions: seq<Action>) {
    && actor != NO_ID && kind != WorkspaceKind
    && ids != [] && (to.userIDs != [] || to.roleIDs != []) && actions != []
    && forall a :: a in actions ==> Settable(kind, a)
  }

  lemma AsksInWords(actor: Id, kind: Kind, ids: seq<Id>, to: Targets, actions: seq<Action>)
    ensures CheckWrite(actor, kind, ids, to, actions).None? <==> Asks(actor, kind, ids, to, actions)
  {
    forall a ensures MaySet(kind, a) <==> Settable(kind, a) {
      SettableIsWhatMayBeSet(kind, a);
    }
    assert Each(to) == [] <==> to.userIDs == [] && to.roleIDs == [];
  }

  /** The call asks something, and the actor may write the rules of every entity named. */
  ghost predicate IsAllowed(s: Store, view: Option<Id>, actor: Id, kind: Kind, ids: seq<Id>, to: Targets,
                            actions: seq<Action>, st: WriteState) {
    && Asks(actor, kind, ids, to, actions)
    && forall id :: id in ids ==> MayWrite(s, view, actor, Resource(kind, id), to, actions, st)
  }

  /** The call asks something, and the first entity the actor may not write on is one they open and do not manage. */
  ghost predicate IsForbidden(s: Store, view: Option<Id>, actor: Id, kind: Kind, ids: seq<Id>, to: Targets,
                              actions: seq<Action>, st: WriteState) {
    && Asks(actor, kind, ids, to, actions)
    && exists j: nat :: FirstUnmanaged(s, view, actor, kind, ids, to, actions, st, j)
  }

  lemma TheAllowedIsPlanned(s: Store, view: Option<Id>, actor: Id, kind: Kind, ids: seq<Id>, to: Targets,
                            actions: seq<Action>, st: WriteState)
    requires Kept(s)
    ensures Plan(s, view, actor, kind, ids, to, actions, st).Ok? <==>
            IsAllowed(s, view, actor, kind, ids, to, actions, st)
  {
    AsksInWords(actor, kind, ids, to, actions);
    if Asks(actor, kind, ids, to, actions) { AllExactlyWhen(s, view, actor, kind, ids, to, actions, st); }
  }

  lemma TheForbiddenIsTold(s: Store, view: Option<Id>, actor: Id, kind: Kind, ids: seq<Id>, to: Targets,
                           actions: seq<Action>, st: WriteState)
    requires Kept(s) && IsForbidden(s, view, actor, kind, ids, to, actions, st)
    ensures Plan(s, view, actor, kind, ids, to, actions, st) == Err(Forbidden)
  {
    AsksInWords(actor, kind, ids, to, actions);
    var j: nat :| FirstUnmanaged(s, view, actor, kind, ids, to, actions, st, j);
    TheFirstRefuses(s, view, actor, kind, ids, to, actions, st, j);
  }

  /**
   A call is planned exactly when it asks something and, on every entity named, the actor opens it, holds the action
   that manages its kind, and holds what the write gives. The first entity they open and do not manage refuses the
   call as forbidden.
   */
  lemma PlannedExactlyWhen(s: Store, view: Option<Id>, actor: Id, kind: Kind, ids: seq<Id>, to: Targets,
                           actions: seq<Action>, st: WriteState)
    requires Kept(s)
    ensures Plan(s, view, actor, kind, ids, to, actions, st).Ok? <==>
            IsAllowed(s, view, actor, kind, ids, to, actions, st)
    ensures IsForbidden(s, view, actor, kind, ids, to, actions, st) ==>
              Plan(s, view, actor, kind, ids, to, actions, st) == Err(Forbidden)
  {
    TheAllowedIsPlanned(s, view, actor, kind, ids, to, actions, st);
    if IsForbidden(s, view, actor, kind, ids, to, actions, st) {
      TheForbiddenIsTold(s, view, actor, kind, ids, to, actions, st);
    }
  }
}
