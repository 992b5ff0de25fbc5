/**
 The different reads of an entity's rules agree. A check may read every role a person holds anywhere, or only the roles
 held in one workspace; laid over an answer for given roles, both act as the one canonical reading `Reach`.
 */
module Reach {
  import opened Options
  import opened AccessModel
  import opened Evaluator
  import opened AccessStore

  /** The rules on an entity for one person holding exactly `roleIDs`. */
  function Reaching(s: Store, on: Resource, u: Id, roleIDs: seq<Id>): Option<Rules> {
    Some(Rules(RuleAt(s, Key(on, Person(u))), RoleRules(s, on, roleIDs)))
  }

  /** The rules of each entity from the project inward, for one person holding exactly `roleIDs`. */
  function ChainReaching(s: Store, on: Resource, u: Id, roleIDs: seq<Id>): seq<Option<Rules>> {
    if on.id == NO_ID || on.kind == ProjectKind || on.kind == WorkspaceKind then []
    else if on.kind == DocKind then
      var f := DocScopeOf(s, on.id).folderID;
      [if f == NO_ID then None else Reaching(s, Resource(FolderKind, f), u, roleIDs), Reaching(s, on, u, roleIDs)]
    else [Reaching(s, on, u, roleIDs)]
  }

  ghost predicate AllHeld(s: Store, u: Id, roleIDs: seq<Id>) {
    forall r :: r in roleIDs ==> HoldsSomewhere(s, u, r)
  }

  lemma {:induction false} CollectIgnoresOtherRoles(s: Store, on: Resource, order: seq<Id>, roleIDs: seq<Id>, a: Action,
                                                    st: State)
    ensures FirstSetting(Collect(s, on, order), roleIDs, a, st) ==
            FirstSetting(Collect(s, on, Among(order, roleIDs)), roleIDs, a, st)
  {
    if order != [] {
      CollectIgnoresOtherRoles(s, on, order[1..], roleIDs, a, st);
      var k := Key(on, Role(order[0]));
      var rest := Collect(s, on, order[1..]);
      if k in s.rules {
        assert Collect(s, on, order) == [RuleAt(s, k).value] + rest;
        assert Collect(s, on, order)[1..] == rest;
        if order[0] in roleIDs {
          var kept := Among(order[1..], roleIDs);
          assert ([order[0]] + kept)[1..] == kept;
          assert Collect(s, on, [order[0]] + kept)[1..] == Collect(s, on, kept);
        }
      } else if order[0] in roleIDs {
        var kept := Among(order[1..], roleIDs);
        assert ([order[0]] + kept)[1..] == kept;
      }
    }
  }

  lemma {:induction false} HeldAmong(s: Store, u: Id, order: seq<Id>, roleIDs: seq<Id>)
    requires AllHeld(s, u, roleIDs)
    ensures Among(HeldBy(s, u, order), roleIDs) == Among(order, roleIDs)
  {
    if order != [] {
      HeldAmong(s, u, order[1..], roleIDs);
      if HoldsSomewhere(s, u, order[0]) {
        assert HeldBy(s, u, order)[1..] == HeldBy(s, u, order[1..]);
      }
    }
  }

  /** Reading every role held anywhere, laid over an answer for given roles, acts as reading only those roles. */
  lemma RulesOnReach(v: Verdict, s: Store, on: Resource, u: Id, roleIDs: seq<Id>, a: Action)
    requires AllHeld(s, u, roleIDs)
    ensures ApplyRules(v, RulesOn(s, on, u), roleIDs, a) == ApplyRules(v, Reaching(s, on, u, roleIDs), roleIDs, a)
  {
    var held := HeldBy(s, u, s.roleOrder);
    HeldAmong(s, u, s.roleOrder, roleIDs);
    CollectIgnoresOtherRoles(s, on, held, roleIDs, a, Allow);
    CollectIgnoresOtherRoles(s, on, held, roleIDs, a, Deny);
  }

  lemma ProjectRulesReach(v: Verdict, s: Store, u: Id, p: Id, roleIDs: seq<Id>, a: Action)
    ensures ApplyRules(v, ProjectRules(s, u, roleIDs, p), roleIDs, a)
         == ApplyRules(v, Reaching(s, Resource(ProjectKind, p), u, roleIDs), roleIDs, a)
  {
  }

  lemma PersonAtFallbackReach(v: Verdict, s: Store, on: Resource, u: Id, roleIDs: seq<Id>, a: Action, b: Action)
    requires AllHeld(s, u, roleIDs)
    ensures ApplyRules(v, PersonAtFallback(RulesOn(s, on, u), b), roleIDs, a)
         == ApplyRules(v, PersonAtFallback(Reaching(s, on, u, roleIDs), b), roleIDs, a)
  {
    RulesOnReach(v, s, on, u, roleIDs, a);
    var held := HeldBy(s, u, s.roleOrder);
    HeldAmong(s, u, s.roleOrder, roleIDs);
    CollectIgnoresOtherRoles(s, on, held, roleIDs, a, Allow);
    CollectIgnoresOtherRoles(s, on, held, roleIDs, a, Deny);
  }

  lemma ChainReach(v: Verdict, s: Store, on: Resource, u: Id, roleIDs: seq<Id>, a: Action)
    requires AllHeld(s, u, roleIDs)
    ensures ApplyChain(v, ChainOf(s, on, u), roleIDs, a) == ApplyChain(v, ChainReaching(s, on, u, roleIDs), roleIDs, a)
  {
    if on.id == NO_ID || on.kind == ProjectKind || on.kind == WorkspaceKind {
    } else if on.kind == DocKind {
      var f := DocScopeOf(s, on.id).folderID;
      var chain := ChainReaching(s, on, u, roleIDs);
      var folder := Resource(FolderKind, f);
      var inFolder := if f == NO_ID then None else RulesOn(s, folder, u);
      var next := ApplyRules(v, inFolder, roleIDs, a);
      if f != NO_ID { RulesOnReach(v, s, folder, u, roleIDs, a); }
      assert ApplyRules(v, chain[0], roleIDs, a) == next;
      RulesOnReach(next, s, on, u, roleIDs, a);
      ApplyTwo(v, chain[0], chain[1], roleIDs, a);
      var own := RulesOn(s, on, u);
      ApplyTwo(v, inFolder, own, roleIDs, a);
      if inFolder.None? && own.None? {
        assert ChainOf(s, on, u) == [];
      } else {
        assert ChainOf(s, on, u) == [inFolder, own];
      }
    } else {
      RulesOnReach(v, s, on, u, roleIDs, a);
      ApplyOne(v, RulesOn(s, on, u), roleIDs, a);
      ApplyOne(v, Reaching(s, on, u, roleIDs), roleIDs, a);
    }
  }

  lemma ApplyOne(v: Verdict, r: Option<Rules>, roleIDs: seq<Id>, a: Action)
    ensures ApplyChain(v, [r], roleIDs, a) == ApplyRules(v, r, roleIDs, a)
  {
    assert [r][1..] == [];
  }

  lemma ApplyTwo(v: Verdict, r: Option<Rules>, q: Option<Rules>, roleIDs: seq<Id>, a: Action)
    ensures ApplyChain(v, [r, q], roleIDs, a) == ApplyRules(ApplyRules(v, r, roleIDs, a), q, roleIDs, a)
  {
    assert [r, q][1..] == [q];
    ApplyOne(ApplyRules(v, r, roleIDs, a), q, roleIDs, a);
  }

  // ------------------------------------------------------------------ roles in layers are held

  lemma LayersRolesHeld(s: Store, view: Option<Id>, u: Id, w: Id, p: Id)
    ensures AllHeld(s, u, RoleIDs(LayersFor(s, view, u, w, p).roles))
  {
    if (w, u) in s.members {
      forall r | r in RoleIDs(s.members[(w, u)]) ensures HoldsSomewhere(s, u, r) {
        assert (w, u) in s.members && (w, u).1 == u;
      }
    }
    assert RoleIDs(NO_ROLES) == [];
  }

  lemma {:induction false} RoleIDsOfHeld(s: Store, u: Id, layers: seq<Layers>)
    requires forall i :: 0 <= i < |layers| ==> AllHeld(s, u, RoleIDs(layers[i].roles))
    ensures AllHeld(s, u, RoleIDsOf(layers))
  {
    if layers != [] {
      assert forall i :: 0 <= i < |layers| - 1 ==> layers[1..][i] == layers[i + 1];
      RoleIDsOfHeld(s, u, layers[1..]);
    }
  }

  lemma AcrossRolesHeld(s: Store, view: Option<Id>, u: Id, workspaceIDs: seq<Id>)
    ensures AllHeld(s, u, RoleIDsOf(LayersAcross(s, view, u, workspaceIDs)))
  {
    forall i | 0 <= i < |workspaceIDs| ensures AllHeld(s, u, RoleIDs(LayersAcross(s, view, u, workspaceIDs)[i].roles)) {
      LayersRolesHeld(s, view, u, workspaceIDs[i], NO_ID);
    }
    RoleIDsOfHeld(s, u, LayersAcross(s, view, u, workspaceIDs));
  }

  // ------------------------------------------------------------------ what an entity says, by the stored states

  ghost predicate SomeRoleAt(s: Store, on: Resource, roleIDs: seq<Id>, a: Action, st: State) {
    exists r :: r in s.roleOrder && r in roleIDs && StateAt(s, Key(on, Role(r)), a) == st
  }

  ghost function SayAt(s: Store, on: Resource, u: Id, roleIDs: seq<Id>, a: Action): State {
    if StateAt(s, Key(on, Person(u)), a) != Fallback then StateAt(s, Key(on, Person(u)), a)
    else if SomeRoleAt(s, on, roleIDs, a, Allow) then Allow
    else if SomeRoleAt(s, on, roleIDs, a, Deny) then Deny
    else Fallback
  }

  lemma {:induction false} CollectedSets(s: Store, on: Resource, order: seq<Id>, roleIDs: seq<Id>, a: Action, st: State)
    requires st != Fallback
    ensures SomeRoleSets(Collect(s, on, order), roleIDs, a, st) <==>
            exists r :: r in order && r in roleIDs && StateAt(s, Key(on, Role(r)), a) == st
  {
    if order != [] {
      CollectedSets(s, on, order[1..], roleIDs, a, st);
      var k := Key(on, Role(order[0]));
      var rest := Collect(s, on, order[1..]);
      assert forall r :: r in order <==> r == order[0] || r in order[1..];
      if k in s.rules {
        var head := RuleAt(s, k).value;
        assert Collect(s, on, order) == [head] + rest;
        assert forall q :: q in Collect(s, on, order) <==> q == head || q in rest;
        assert Evaluator.Sets(head, roleIDs, a, st) <==> order[0] in roleIDs && StateAt(s, k, a) == st;
      }
    }
  }

  lemma {:induction false} InAmong(order: seq<Id>, ids: seq<Id>)
    ensures forall r :: r in Among(order, ids) <==> r in order && r in ids
  {
    if order != [] {
      InAmong(order[1..], ids);
      assert forall r :: r in order <==> r == order[0] || r in order[1..];
    }
  }

  /** What the canonical reading says is fixed by the stored state of each rule. */
  lemma ReachingSays(s: Store, on: Resource, u: Id, roleIDs: seq<Id>, a: Action)
    ensures Say(Reaching(s, on, u, roleIDs), roleIDs, a) == SayAt(s, on, u, roleIDs, a)
  {
    InAmong(s.roleOrder, roleIDs);
    CollectedSets(s, on, Among(s.roleOrder, roleIDs), roleIDs, a, Allow);
    CollectedSets(s, on, Among(s.roleOrder, roleIDs), roleIDs, a, Deny);
  }

  // ------------------------------------------------------------------ frames

  ghost predicate SameRulesOn(s: Store, t: Store, on: Resource) {
    forall k: Key :: k.on == on ==> Find(s.rules, k) == Find(t.rules, k)
  }

  lemma {:induction false} CollectFrame(s: Store, t: Store, on: Resource, ids: seq<Id>)
    requires forall r :: r in ids ==> Find(s.rules, Key(on, Role(r))) == Find(t.rules, Key(on, Role(r)))
    ensures Collect(s, on, ids) == Collect(t, on, ids)
  {
    if ids != [] {
      CollectFrame(s, t, on, ids[1..]);
      var k := Key(on, Role(ids[0]));
      assert Find(s.rules, k) == Find(t.rules, k);
    }
  }

  /** A store differing only in rules on other entities gives the same rules on this one. */
  lemma ReachingFrame(s: Store, t: Store, on: Resource, u: Id, roleIDs: seq<Id>)
    requires s.roleOrder == t.roleOrder
    requires SameRulesOn(s, t, on)
    ensures Reaching(s, on, u, roleIDs) == Reaching(t, on, u, roleIDs)
  {
    assert Find(s.rules, Key(on, Person(u))) == Find(t.rules, Key(on, Person(u)));
    CollectFrame(s, t, on, Among(s.roleOrder, roleIDs));
  }
}
