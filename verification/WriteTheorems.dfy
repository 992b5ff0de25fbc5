/**
 What an accepted write does to every stored rule, when storing it can fail, and that it gives only what its author
 held.
 */
module WriteTheorems {
  import opened Options
  import opened AccessModel
  import opened Evaluator
  import opened AccessStore
  import opened Reach
  import opened RuleRows
  import opened WhatIf
  import opened Writes

  /** A call's arguments. */
  datatype Call = Call(view: Option<Id>, actor: Id, kind: Kind, ids: seq<Id>, to: Targets, actions: seq<Action>,
                       st: WriteState)

  function PlanOf(s: Store, c: Call): Result<seq<RuleWrite>> {
    Plan(s, c.view, c.actor, c.kind, c.ids, c.to, c.actions, c.st)
  }

  predicate Named(c: Call, k: Key) {
    Names(c.kind, c.ids, Each(c.to), k)
  }

  /** `t` is the store after the call was accepted on `s` and every write stored. */
  ghost predicate Accepted(s: Store, c: Call, t: Store) {
    && PlanOf(s, c).Ok?
    && StoreAll(KnownTo(s), s.rules, PlanOf(s, c).value) == (t.rules, None)
    && t == s.(rules := t.rules)
  }

  // ------------------------------------------------------------------ storing a plan

  /** Two writes to one rule carry one row. */
  ghost predicate Functional(writes: seq<RuleWrite>) {
    forall w, v :: w in writes && v in writes && w.key == v.key ==> w.row == v.row
  }

  lemma PlanIsFunctional(s: Store, c: Call)
    requires PlanOf(s, c).Ok?
    ensures Functional(PlanOf(s, c).value)
    ensures forall w :: w in PlanOf(s, c).value && w.row == EMPTY_ROW ==> w.key in s.rules
  {
    AllPlanned(s, c.view, c.actor, c.kind, c.ids, c.to, c.actions, c.st);
  }

  lemma {:induction false} StoreAllRows(known: Known, rules: map<Key, Row>, writes: seq<RuleWrite>)
    requires Functional(writes)
    ensures var (out, err) := StoreAll(known, rules, writes);
            err.None? ==>
              && (forall w :: w in writes ==> RowAt(out, w.key) == w.row)
              && (forall k :: (forall w :: w in writes ==> w.key != k) ==> Find(out, k) == Find(rules, k))
              && (NonEmptyRows(rules) ==> NonEmptyRows(out))
    decreases |writes|
  {
    if writes != [] && StoreRefusal(known, rules, writes[0]).None? {
      var head, rest := writes[0], writes[1..];
      assert forall w :: w in writes <==> w == head || w in rest;
      StoreAllRows(known, Stored(rules, head.key, head.row), rest);
      var (out, err) := StoreAll(known, rules, writes);
      if err.None? {
        if w :| w in rest && w.key == head.key {
          assert RowAt(out, head.key) == w.row == head.row;
        } else {
          assert Find(out, head.key) == Find(Stored(rules, head.key, head.row), head.key);
        }
      }
    }
  }

  /**
   A plan's writes: each to a rule named, with its moved row; a rule named and not written was absent and stays so.
   */
  ghost predicate Plans(rules: map<Key, Row>, c: Call, writes: seq<RuleWrite>) {
    && (forall w :: w in writes ==> Named(c, w.key) && w.row == MoveAll(RowAt(rules, w.key), c.actions, c.st))
    && (forall k :: Named(c, k) ==>
                      RuleWrite(k, MoveAll(RowAt(rules, k), c.actions, c.st)) in writes ||
                      MoveAll(RowAt(rules, k), c.actions, c.st) == RowAt(rules, k) == EMPTY_ROW)
  }

  lemma PlanPlans(s: Store, c: Call)
    requires PlanOf(s, c).Ok?
    ensures Plans(s.rules, c, PlanOf(s, c).value)
  {
    AllPlanned(s, c.view, c.actor, c.kind, c.ids, c.to, c.actions, c.st);
  }

  lemma PlannedStored(known: Known, rules: map<Key, Row>, c: Call, writes: seq<RuleWrite>, out: map<Key, Row>, k: Key)
    requires Plans(rules, c, writes) && StoreAll(known, rules, writes) == (out, None)
    ensures RowAt(out, k) == if Named(c, k) then MoveAll(RowAt(rules, k), c.actions, c.st) else RowAt(rules, k)
    ensures !Named(c, k) ==> Find(out, k) == Find(rules, k)
  {
    StoreAllRows(known, rules, writes);
    if forall w :: w in writes ==> w.key != k {
      assert Find(out, k) == Find(rules, k);
    }
  }

  /** After an accepted call each rule named holds its moved row and every other rule is as it was. */
  lemma AcceptedRows(s: Store, c: Call, t: Store, k: Key)
    requires Accepted(s, c, t)
    ensures RowAt(t.rules, k) == if Named(c, k) then MoveAll(RowAt(s.rules, k), c.actions, c.st) else RowAt(s.rules, k)
    ensures !Named(c, k) ==> Find(t.rules, k) == Find(s.rules, k)
  {
    PlanPlans(s, c);
    PlannedStored(KnownTo(s), s.rules, c, PlanOf(s, c).value, t.rules, k);
  }

  /**
   Exact effect: each named (entity, target, action) ends in the state written, and every other triple is untouched.
   */
  lemma AcceptedIsExact(s: Store, c: Call, t: Store, k: Key, b: Action)
    requires Accepted(s, c, t) && DisjointRules(s.rules)
    ensures StateAt(t, k, b) == if Named(c, k) && b in c.actions then Moved(StateAt(s, k, b), c.st)
                                else StateAt(s, k, b)
  {
    AcceptedRows(s, c, t, k);
    MoveAllLands(RowAt(s.rules, k), c.actions, c.st, b);
  }

  /**
   Repeating an accepted call changes nothing, whatever comes of it: it is refused, or plans what is stored and stores
   it whole. Nothing it could delete is there to delete, so it never fails while storing.
   */
  lemma RepeatChangesNothing(s: Store, c: Call, t: Store)
    requires Accepted(s, c, t) && DisjointRules(s.rules) && NonEmptyRows(s.rules)
    ensures PlanOf(t, c).Ok? ==> StoreAll(KnownTo(t), t.rules, PlanOf(t, c).value) == (t.rules, None)
  {
    if PlanOf(t, c).Ok? {
      var writes := PlanOf(t, c).value;
      PlanIsFunctional(s, c);
      StoreAllRows(KnownTo(s), s.rules, PlanOf(s, c).value);
      PlanPlans(t, c);
      PlanIsFunctional(t, c);
      PlanPlans(s, c);
      forall w | w in writes ensures w.key in t.rules && w.row == t.rules[w.key] && Exists(KnownTo(t), w.key.target) {
        AcceptedRows(s, c, t, w.key);
        MoveAllAgain(RowAt(s.rules, w.key), c.actions, c.st);
        StoredExist(KnownTo(s), s.rules, PlanOf(s, c).value, w);
      }
      StoringAgain(KnownTo(t), t.rules, writes);
    }
  }

  /** A row that was stored, and not emptied, names someone there is. */
  lemma {:induction false} StoredExist(known: Known, rules: map<Key, Row>, writes: seq<RuleWrite>, w: RuleWrite)
    requires StoreAll(known, rules, writes).1.None? && w in writes && w.row != EMPTY_ROW
    ensures Exists(known, w.key.target)
    decreases |writes|
  {
    if w != writes[0] {
      StoredExist(known, Stored(rules, writes[0].key, writes[0].row), writes[1..], w);
    }
  }

  /** Storing rows as they are stored changes nothing and never fails. */
  lemma {:induction false} StoringAgain(known: Known, rules: map<Key, Row>, writes: seq<RuleWrite>)
    requires NonEmptyRows(rules)
    requires forall w :: w in writes ==> w.key in rules && w.row == rules[w.key] && Exists(known, w.key.target)
    ensures StoreAll(known, rules, writes) == (rules, None)
    decreases |writes|
  {
    if writes != [] {
      assert writes[0] in writes;
      assert Stored(rules, writes[0].key, writes[0].row) == rules;
      StoringAgain(known, rules, writes[1..]);
    }
  }

  /**
   `t` is the store at some point of storing the call's plan: with all of it stored, or with as much as was before a
   failure.
   */
  ghost predicate Reached(s: Store, c: Call, t: Store) {
    && PlanOf(s, c).Ok?
    && t == s.(rules := t.rules)
    && exists n: nat :: n <= |PlanOf(s, c).value| &&
                        StoreAll(KnownTo(s), s.rules, PlanOf(s, c).value[..n]) == (t.rules, None)
  }

  /** Whatever a call leaves behind, error or not, is such a point. */
  lemma {:induction false} FailedIsReached(known: Known, rules: map<Key, Row>, writes: seq<RuleWrite>) returns (n: nat)
    ensures n <= |writes| && StoreAll(known, rules, writes[..n]) == (StoreAll(known, rules, writes).0, None)
    ensures StoreAll(known, rules, writes).1.None? ==> n == |writes|
    decreases |writes|
  {
    n := 0;
    if writes != [] && StoreRefusal(known, rules, writes[0]).None? {
      n := FailedIsReached(known, Stored(rules, writes[0].key, writes[0].row), writes[1..]);
      n := n + 1;
      assert writes[..n][1..] == writes[1..][..n - 1];
    }
  }

  /** At any point each rule is as it was, or is named and holds its moved row. */
  lemma ReachedRows(s: Store, c: Call, t: Store, k: Key)
    requires Reached(s, c, t)
    ensures RowAt(t.rules, k) == RowAt(s.rules, k) ||
            (Named(c, k) && RowAt(t.rules, k) == MoveAll(RowAt(s.rules, k), c.actions, c.st))
    ensures !Named(c, k) ==> Find(t.rules, k) == Find(s.rules, k)
    ensures NonEmptyRows(s.rules) ==> NonEmptyRows(t.rules)
  {
    var writes := PlanOf(s, c).value;
    var n: nat :| n <= |writes| && StoreAll(KnownTo(s), s.rules, writes[..n]) == (t.rules, None);
    PlanPlans(s, c);
    PlanIsFunctional(s, c);
    assert forall w :: w in writes[..n] ==> w in writes;
    StoreAllRows(KnownTo(s), s.rules, writes[..n]);
    if forall w :: w in writes[..n] ==> w.key != k {
      assert Find(t.rules, k) == Find(s.rules, k);
    }
  }

  /** Allow and deny stay apart over any run of calls, whatever point each was stored to. */
  lemma {:induction false} RunsKeepRulesDisjoint(stores: seq<Store>, calls: seq<Call>)
    requires |stores| == |calls| + 1
    requires DisjointRules(stores[0].rules)
    requires forall i :: 0 <= i < |calls| ==> Reached(stores[i], calls[i], stores[i + 1])
    ensures DisjointRules(stores[|calls|].rules)
    decreases |calls|
  {
    if calls != [] {
      var n := |calls| - 1;
      RunsKeepRulesDisjoint(stores[..n + 1], calls[..n]);
      assert stores[..n + 1][n] == stores[n];
      var after := stores[n + 1].rules;
      forall k | k in after ensures DisjointRow(after[k]) {
        ReachedRows(stores[n], calls[n], stores[n + 1], k);
        MoveAllLands(RowAt(stores[n].rules, k), calls[n].actions, calls[n].st, Member);
      }
    }
  }

  /** Every rule sets only what rules on its kind of entity may. */
  ghost predicate SettableRules(rules: map<Key, Row>) {
    forall k, a :: k in rules && (a in rules[k].allow || a in rules[k].deny) ==> Settable(k.on.kind, a)
  }

  lemma {:induction false} MovesOnlyWhatIsListed(r: Row, actions: seq<Action>, st: WriteState, a: Action)
    ensures var moved := MoveAll(r, actions, st);
            (a in moved.allow && a !in r.allow) || (a in moved.deny && a !in r.deny) ==> a in actions
    decreases |actions|
  {
    if actions != [] { MovesOnlyWhatIsListed(MoveTo(r, actions[0], st), actions[1..], st, a); }
  }

  /** Over any run of calls no rule comes to set an action its kind of entity has no use for. */
  lemma {:induction false} RunsKeepRulesSettable(stores: seq<Store>, calls: seq<Call>)
    requires |stores| == |calls| + 1
    requires SettableRules(stores[0].rules)
    requires forall i :: 0 <= i < |calls| ==> Reached(stores[i], calls[i], stores[i + 1])
    ensures SettableRules(stores[|calls|].rules)
    decreases |calls|
  {
    if calls != [] {
      var n := |calls| - 1;
      RunsKeepRulesSettable(stores[..n + 1], calls[..n]);
      assert stores[..n + 1][n] == stores[n];
      var before, after, c := stores[n].rules, stores[n + 1].rules, calls[n];
      AsksInWords(c.actor, c.kind, c.ids, c.to, c.actions);
      forall k, a | k in after && (a in after[k].allow || a in after[k].deny) ensures Settable(k.on.kind, a) {
        ReachedRows(stores[n], c, stores[n + 1], k);
        MovesOnlyWhatIsListed(RowAt(before, k), c.actions, c.st, a);
      }
    }
  }

  // ------------------------------------------------------------------ when storing fails after planning

  /** Some rule the call empties is written twice. */
  ghost predicate EmptiedTwice(writes: seq<RuleWrite>) {
    exists i, j :: 0 <= i < j < |writes| && writes[i].key == writes[j].key && writes[j].row == EMPTY_ROW
  }

  /** Some rule the call would keep names a person with no account, or a role there is not. */
  ghost predicate NamesNobody(known: Known, writes: seq<RuleWrite>) {
    exists w :: w in writes && w.row != EMPTY_ROW && !Exists(known, w.key.target)
  }

  lemma {:induction false} DeletingAbsentFails(known: Known, rules: map<Key, Row>, writes: seq<RuleWrite>, j: nat)
    requires Functional(writes) && j < |writes| && writes[j].row == EMPTY_ROW && writes[j].key !in rules
    ensures StoreAll(known, rules, writes).1.Some?
    decreases |writes|
  {
    if j != 0 && StoreRefusal(known, rules, writes[0]).None? {
      assert writes[0] in writes && writes[j] in writes;
      assert writes[1..][j - 1] == writes[j];
      assert forall w :: w in writes[1..] ==> w in writes;
      DeletingAbsentFails(known, Stored(rules, writes[0].key, writes[0].row), writes[1..], j - 1);
    }
  }

  lemma EmptiedTwiceInTheRest(writes: seq<RuleWrite>)
    requires writes != []
    requires forall j :: 1 <= j < |writes| ==> writes[j].key != writes[0].key || writes[j].row != EMPTY_ROW
    ensures EmptiedTwice(writes) <==> EmptiedTwice(writes[1..])
  {
    var rest := writes[1..];
    if EmptiedTwice(writes) {
      var i, j :| 0 <= i < j < |writes| && writes[i].key == writes[j].key && writes[j].row == EMPTY_ROW;
      assert rest[j - 1] == writes[j] && rest[i - 1] == writes[i];
    }
    if EmptiedTwice(rest) {
      var i, j :| 0 <= i < j < |rest| && rest[i].key == rest[j].key && rest[j].row == EMPTY_ROW;
      assert writes[i + 1].key == writes[j + 1].key && writes[j + 1].row == EMPTY_ROW;
    }
  }

  /**
   Planned writes fail while storing, some of them already kept, exactly when one rule is emptied twice or a rule to be
   kept names nobody there is.
   */
  lemma {:induction false} StoringFailsExactlyWhen(known: Known, rules: map<Key, Row>, writes: seq<RuleWrite>)
    requires Functional(writes)
    requires forall w :: w in writes && w.row == EMPTY_ROW ==> w.key in rules
    ensures StoreAll(known, rules, writes).1.Some? <==> EmptiedTwice(writes) || NamesNobody(known, writes)
    decreases |writes|
  {
    if writes != [] {
      var head, rest := writes[0], writes[1..];
      var next := Stored(rules, head.key, head.row);
      assert head in writes;
      assert forall w :: w in writes <==> w == head || w in rest;
      if StoreRefusal(known, rules, head).Some? {
        assert NamesNobody(known, writes);
      } else if j :| 0 <= j < |rest| && rest[j].key == head.key && rest[j].row == EMPTY_ROW {
        assert rest[j] in rest && writes[0].key == writes[j + 1].key && writes[j + 1].row == EMPTY_ROW;
        DeletingAbsentFails(known, next, rest, j);
      } else {
        forall w | w in rest && w.row == EMPTY_ROW ensures w.key in next {
          assert w.key in rules && w.key != head.key;
        }
        StoringFailsExactlyWhen(known, next, rest);
        EmptiedTwiceInTheRest(writes);
      }
    }
  }

  ghost predicate DistinctTargets(targets: seq<Target>) {
    forall i, j :: 0 <= i < j < |targets| ==> targets[i] != targets[j]
  }

  ghost predicate DistinctKeys(writes: seq<RuleWrite>) {
    forall i, j :: 0 <= i < j < |writes| ==> writes[i].key != writes[j].key
  }

  lemma {:induction false} DistinctTargetsPlanned(s: Store, view: Option<Id>, actor: Id, on: Resource,
                                                  targets: seq<Target>, actions: seq<Action>, st: WriteState)
    requires DistinctTargets(targets)
    ensures var plan := PlanTargets(s, view, actor, on, targets, actions, st); plan.Ok? ==> DistinctKeys(plan.value)
  {
    if targets != [] {
      DistinctTargetsPlanned(s, view, actor, on, targets[1..], actions, st);
      TargetsPlanned(s, view, actor, on, targets[1..], actions, st);
      assert targets[0] !in targets[1..];
      var rest := PlanTargets(s, view, actor, on, targets[1..], actions, st);
      if rest.Ok? {
        assert forall i :: 0 <= i < |rest.value| ==> rest.value[i] in rest.value;
      }
    }
  }

  lemma {:induction false} DistinctPlanned(s: Store, view: Option<Id>, actor: Id, kind: Kind, ids: seq<Id>, to: Targets,
                                           actions: seq<Action>, st: WriteState)
    requires Distinct(ids) && DistinctTargets(Each(to))
    ensures var plan := PlanAll(s, view, actor, kind, ids, to, actions, st); plan.Ok? ==> DistinctKeys(plan.value)
  {
    if ids != [] {
      var on := Resource(kind, ids[0]);
      DistinctPlanned(s, view, actor, kind, ids[1..], to, actions, st);
      AllPlanned(s, view, actor, kind, ids[1..], to, actions, st);
      DistinctTargetsPlanned(s, view, actor, on, Each(to), actions, st);
      TargetsPlanned(s, view, actor, on, Each(to), actions, st);
      assert ids[0] !in ids[1..];
      var first := PlanRules(s, view, actor, on, to, actions, st);
      var rest := PlanAll(s, view, actor, kind, ids[1..], to, actions, st);
      if first.Ok? && rest.Ok? {
        assert forall i :: 0 <= i < |first.value| ==> first.value[i] in first.value;
        assert forall i :: 0 <= i < |rest.value| ==> rest.value[i] in rest.value;
      }
    }
  }

  /** A person named who has no account, and whom the call would leave with a rule. */
  ghost predicate KeepsARuleForNobody(s: Store, c: Call) {
    exists u, id :: u in c.to.userIDs && id in c.ids && LeavesARuleForNobody(s, c, u, id)
  }

  predicate LeavesARuleForNobody(s: Store, c: Call, u: Id, id: Id) {
    u !in s.accounts && MoveAll(RowAt(s.rules, Key(Resource(c.kind, id), Person(u))), c.actions, c.st) != EMPTY_ROW
  }

  lemma PlannedRolesExist(s: Store, c: Call)
    requires PlanOf(s, c).Ok?
    ensures c.ids != [] ==> forall r :: r in c.to.roleIDs ==> r in s.roles
  {
  }

  lemma PlanNamesNobody(s: Store, c: Call)
    requires PlanOf(s, c).Ok?
    ensures NamesNobody(KnownTo(s), PlanOf(s, c).value) <==> KeepsARuleForNobody(s, c)
  {
    PlanPlans(s, c);
    PlannedRolesExist(s, c);
    var writes := PlanOf(s, c).value;
    if NamesNobody(KnownTo(s), writes) {
      var w :| w in writes && w.row != EMPTY_ROW && !Exists(KnownTo(s), w.key.target);
      InEach(c.to, w.key.target);
      assert w.key == Key(Resource(c.kind, w.key.on.id), Person(w.key.target.id));
      assert LeavesARuleForNobody(s, c, w.key.target.id, w.key.on.id);
    }
    if KeepsARuleForNobody(s, c) {
      var u, id :| u in c.to.userIDs && id in c.ids && LeavesARuleForNobody(s, c, u, id);
      InEach(c.to, Person(u));
      var k := Key(Resource(c.kind, id), Person(u));
      assert Named(c, k) && RuleWrite(k, MoveAll(RowAt(s.rules, k), c.actions, c.st)) in writes;
    }
  }

  /**
   A planned call naming no entity and no target twice fails while storing exactly when it would leave a person with no
   account with a rule; otherwise every refusal leaves every rule unchanged.
   */
  lemma DistinctCallsFailExactlyWhen(s: Store, c: Call)
    requires PlanOf(s, c).Ok? && Distinct(c.ids) && DistinctTargets(Each(c.to))
    ensures StoreAll(KnownTo(s), s.rules, PlanOf(s, c).value).1.Some? <==> KeepsARuleForNobody(s, c)
  {
    PlanIsFunctional(s, c);
    DistinctPlanned(s, c.view, c.actor, c.kind, c.ids, c.to, c.actions, c.st);
    StoringFailsExactlyWhen(KnownTo(s), s.rules, PlanOf(s, c).value);
    PlanNamesNobody(s, c);
  }

  /** Any planned call fails while storing exactly when it empties a rule twice or keeps one for nobody. */
  lemma CallsFailExactlyWhen(s: Store, c: Call)
    requires PlanOf(s, c).Ok?
    ensures StoreAll(KnownTo(s), s.rules, PlanOf(s, c).value).1.Some? <==>
            EmptiedTwice(PlanOf(s, c).value) || KeepsARuleForNobody(s, c)
  {
    PlanIsFunctional(s, c);
    StoringFailsExactlyWhen(KnownTo(s), s.rules, PlanOf(s, c).value);
    PlanNamesNobody(s, c);
  }

  // A workspace 1 owned by 10, with play 5 and a rule letting 20 see it; 30 has an account too.
  const PLAY := Resource(PlayKind, 5)
  const OWNED := Store(map[Key(PLAY, Person(20)) := Row({PLAYS_READ}, {})], map[], [],
                       map[(1, 10) := RoleInfo(2, true, {}, [])],
                       map[10 := [1]], map[], map[], map[], map[], map[5 := 1], map[], map[], [], map[], NO_ID, [],
                       {10, 20, 30})

  /** The owner's call on the play for two people, with the row planned for each. */
  lemma OwnersPlan(u: Id, v: Id, st: WriteState, first: Row, second: Row)
    requires MoveTo(RowAt(OWNED.rules, Key(PLAY, Person(u))), PLAYS_READ, st) == first
    requires MoveTo(RowAt(OWNED.rules, Key(PLAY, Person(v))), PLAYS_READ, st) == second
    requires Key(PLAY, Person(u)) in OWNED.rules || first != EMPTY_ROW
    requires Key(PLAY, Person(v)) in OWNED.rules || second != EMPTY_ROW
    ensures PlanOf(OWNED, Call(None, 10, PlayKind, [5], Targets([u, v], []), [PLAYS_READ], st)) ==
            Ok([RuleWrite(Key(PLAY, Person(u)), first), RuleWrite(Key(PLAY, Person(v)), second)])
  {
    var c := Call(None, 10, PlayKind, [5], Targets([u, v], []), [PLAYS_READ], st);
    var targets := Each(c.to);
    var w, x := RuleWrite(Key(PLAY, Person(u)), first), RuleWrite(Key(PLAY, Person(v)), second);
    assert targets == [Person(u), Person(v)];
    assert LayersFor(OWNED, None, 10, 1, NO_ID).owner;
    assert Holds(OWNED, None, 10, PLAY, PLAYS_READ);
    assert Guard(OWNED, None, 10, PLAY, c.to, c.actions).None?;
    assert c.actions[1..] == [] && c.ids[1..] == [];
    OwnersRow(RowAt(OWNED.rules, w.key), st);
    OwnersRow(RowAt(OWNED.rules, x.key), st);
    assert targets[1..] == [Person(v)] && targets[1..][1..] == [];
    assert PlanTargets(OWNED, None, 10, PLAY, targets[1..], c.actions, st) == Ok([x] + []);
    assert PlanTargets(OWNED, None, 10, PLAY, targets, c.actions, st) == Ok([w] + ([x] + []));
    assert PLAYS_READ in PlayActions();
    assert CheckWrite(c.actor, c.kind, c.ids, c.to, c.actions).None?;
    assert PlanAll(OWNED, None, 10, PlayKind, [], c.to, c.actions, st) == Ok([]);
    assert PlanOf(OWNED, c) == Ok([w] + ([x] + []) + []);
    assert [w] + ([x] + []) + [] == [w, x];
  }

  lemma OwnersRow(row: Row, st: WriteState)
    requires Holds(OWNED, None, 10, PLAY, PLAYS_READ)
    ensures NextRow(OWNED, None, 10, PLAY, row, [PLAYS_READ], st) == Ok(MoveTo(row, PLAYS_READ, st))
  {
    assert [PLAYS_READ][1..] == [];
  }

  /**
   Naming one person twice with Fallback deletes the rule, then fails on deleting it again: an error that has changed
   a rule.
   */
  lemma NamingATargetTwiceFailsMidway()
    ensures var c := Call(None, 10, PlayKind, [5], Targets([20, 20], []), [PLAYS_READ], SetFallback);
            var plan := PlanOf(OWNED, c);
            && plan.Ok? && OWNED.rules != map[]
            && StoreAll(KnownTo(OWNED), OWNED.rules, plan.value) == (map[], Some(NotFound))
  {
    var k := Key(PLAY, Person(20));
    assert k in OWNED.rules;
    assert MoveTo(OWNED.rules[k], PLAYS_READ, SetFallback) == EMPTY_ROW;
    OwnersPlan(20, 20, SetFallback, EMPTY_ROW, EMPTY_ROW);
    var w := RuleWrite(k, EMPTY_ROW);
    assert [w, w][1..] == [w];
    assert Stored(OWNED.rules, k, EMPTY_ROW) == map[];
  }

  /**
   Allowing one person who has an account and one who has none stores the first rule, then fails on the second: an error
   that has changed a rule, with nothing named twice and nothing emptied.
   */
  lemma NamingNobodyFailsMidway()
    ensures var c := Call(None, 10, PlayKind, [5], Targets([30, 99], []), [PLAYS_READ], SetAllow);
            var plan := PlanOf(OWNED, c);
            var given := OWNED.rules[Key(PLAY, Person(30)) := Row({PLAYS_READ}, {})];
            && plan.Ok? && !EmptiedTwice(plan.value) && given != OWNED.rules
            && StoreAll(KnownTo(OWNED), OWNED.rules, plan.value) == (given, Some(Conflict))
  {
    var row := Row({PLAYS_READ}, {});
    assert MoveTo(EMPTY_ROW, PLAYS_READ, SetAllow) == row;
    OwnersPlan(30, 99, SetAllow, row, row);
    var w, x := RuleWrite(Key(PLAY, Person(30)), row), RuleWrite(Key(PLAY, Person(99)), row);
    assert [w, x][1..] == [x];
    assert Key(PLAY, Person(30)) !in OWNED.rules;
  }

  // ------------------------------------------------------------------ no write gives what its author lacks

  /** `t` differs from `s` only in rules on entities of one kind. */
  ghost predicate WroteOnly(s: Store, t: Store, kind: Kind) {
    t == s.(rules := t.rules) && forall k: Key :: k.on.kind != kind ==> Find(t.rules, k) == Find(s.rules, k)
  }

  /** No rule on the entity was raised for the action. */
  ghost predicate NotRaised(s: Store, t: Store, on: Resource, a: Action) {
    forall x: Target :: Rank(StateAt(t, Key(on, x), a)) <= Rank(StateAt(s, Key(on, x), a))
  }

  lemma SayNotRaised(s: Store, t: Store, on: Resource, u: Id, ids: seq<Id>, a: Action)
    requires s.roleOrder == t.roleOrder && NotRaised(s, t, on, a)
    ensures Rank(Say(Reaching(t, on, u, ids), ids, a)) <= Rank(Say(Reaching(s, on, u, ids), ids, a))
  {
    ReachingSays(s, on, u, ids, a);
    ReachingSays(t, on, u, ids, a);
    SayAtNotRaised(s, t, on, u, ids, a);
  }

  lemma SayAtNotRaised(s: Store, t: Store, on: Resource, u: Id, ids: seq<Id>, a: Action)
    requires s.roleOrder == t.roleOrder && NotRaised(s, t, on, a)
    ensures Rank(SayAt(t, on, u, ids, a)) <= Rank(SayAt(s, on, u, ids, a))
  {
    assert Rank(StateAt(t, Key(on, Person(u)), a)) <= Rank(StateAt(s, Key(on, Person(u)), a));
    if SomeRoleAt(t, on, ids, a, Allow) {
      var r :| r in t.roleOrder && r in ids && StateAt(t, Key(on, Role(r)), a) == Allow;
      assert Rank(StateAt(t, Key(on, Role(r)), a)) <= Rank(StateAt(s, Key(on, Role(r)), a));
      assert SomeRoleAt(s, on, ids, a, Allow);
    }
    if SomeRoleAt(s, on, ids, a, Deny) {
      var r :| r in s.roleOrder && r in ids && StateAt(s, Key(on, Role(r)), a) == Deny;
      assert Rank(StateAt(t, Key(on, Role(r)), a)) <= Rank(StateAt(s, Key(on, Role(r)), a));
      assert SomeRoleAt(t, on, ids, a, Deny);
    }
  }

  lemma RulesNotRaised(v: Verdict, s: Store, t: Store, on: Resource, u: Id, ids: seq<Id>, a: Action)
    requires s.roleOrder == t.roleOrder && NotRaised(s, t, on, a)
    ensures ApplyRules(v, Reaching(t, on, u, ids), ids, a).allowed ==>
              ApplyRules(v, Reaching(s, on, u, ids), ids, a).allowed
  {
    SayNotRaised(s, t, on, u, ids, a);
    ApplyRulesSays(v, Reaching(s, on, u, ids), ids, a);
    ApplyRulesSays(v, Reaching(t, on, u, ids), ids, a);
  }

  lemma HeldIn(s: Store, t: Store, u: Id, ids: seq<Id>)
    requires s.members == t.members && AllHeld(s, u, ids)
    ensures AllHeld(t, u, ids)
  {
    forall r | r in ids ensures HoldsSomewhere(t, u, r) {
      assert HoldsSomewhere(s, u, r);
    }
  }

  lemma LayersKept(s: Store, t: Store, kind: Kind, view: Option<Id>, u: Id, w: Id, p: Id)
    requires WroteOnly(s, t, kind)
    requires p == NO_ID || kind != ProjectKind
    ensures LayersFor(t, view, u, w, p) == LayersFor(s, view, u, w, p)
  {
    if p != NO_ID {
      var on := Resource(ProjectKind, p);
      var ids := InfoRoleIDs(Find(s.members, (w, u)));
      ReachingFrame(s, t, on, u, ids);
      assert Reaching(s, on, u, ids) == Reaching(t, on, u, ids);
    }
  }

  /** Inside a project, a play or a channel: with no rule raised for the action, nobody comes to hold it. */
  lemma InsideNotRaised(s: Store, t: Store, view: Option<Id>, u: Id, w: Id, p: Id, on: Resource, a: Action)
    requires WroteOnly(s, t, on.kind) && NotRaised(s, t, on, a)
    requires on.kind != ProjectKind
    ensures Decide(LayersFor(t, view, u, w, p), a, ChainOf(t, on, u)).allowed ==>
              Decide(LayersFor(s, view, u, w, p), a, ChainOf(s, on, u)).allowed
  {
    LayersKept(s, t, on.kind, view, u, w, p);
    var ws := LayersFor(s, view, u, w, p);
    var ids := RoleIDs(ws.roles);
    LayersRolesHeld(s, view, u, w, p);
    HeldIn(s, t, u, ids);
    var v := Has(ws, a);
    ChainReach(v, s, on, u, ids, a);
    ChainReach(v, t, on, u, ids, a);
    if on.id == NO_ID || on.kind == WorkspaceKind {
    } else if on.kind == DocKind {
      var f := DocScopeOf(s, on.id).folderID;
      if f != NO_ID { ReachingFrame(s, t, Resource(FolderKind, f), u, ids); }
      var outer := ChainReaching(s, on, u, ids)[0];
      assert outer == ChainReaching(t, on, u, ids)[0];
      RulesNotRaised(ApplyRules(v, outer, ids, a), s, t, on, u, ids, a);
      ApplyTwo(v, outer, Reaching(s, on, u, ids), ids, a);
      ApplyTwo(v, outer, Reaching(t, on, u, ids), ids, a);
    } else {
      RulesNotRaised(v, s, t, on, u, ids, a);
      ApplyOne(v, Reaching(s, on, u, ids), ids, a);
      ApplyOne(v, Reaching(t, on, u, ids), ids, a);
    }
  }

  lemma ChannelReadNotRaised(s: Store, t: Store, view: Option<Id>, u: Id, w: Id, c: Id)
    requires WroteOnly(s, t, ChannelKind) && NotRaised(s, t, Resource(ChannelKind, c), CHANNELS_READ)
    ensures ChannelRead(t, view, u, w, c, true).allowed ==> ChannelRead(s, view, u, w, c, true).allowed
  {
    LayersKept(s, t, ChannelKind, view, u, w, NO_ID);
    var ids := RoleIDs(LayersFor(s, view, u, w, NO_ID).roles);
    LayersRolesHeld(s, view, u, w, NO_ID);
    HeldIn(s, t, u, ids);
    var base, on := ChannelBase(s, u, c), Resource(ChannelKind, c);
    RulesOnReach(base, s, on, u, ids, CHANNELS_READ);
    RulesOnReach(base, t, on, u, ids, CHANNELS_READ);
    RulesNotRaised(base, s, t, on, u, ids, CHANNELS_READ);
  }

  /** On a project: with no rule raised for the action, only someone let in can come to hold it. */
  lemma ProjectNotRaised(s: Store, t: Store, view: Option<Id>, u: Id, w: Id, p: Id, a: Action)
    requires WroteOnly(s, t, ProjectKind) && NotRaised(s, t, Resource(ProjectKind, p), a)
    ensures var ws, wt := LayersFor(s, view, u, w, p), LayersFor(t, view, u, w, p);
            Decide(wt, a, []).allowed ==> Decide(ws, a, []).allowed || (Hidden(ws) && !Hidden(wt))
  {
    var ws, wt := LayersFor(s, view, u, w, p), LayersFor(t, view, u, w, p);
    if (view.Some? && w != view.value) || w == NO_ID || p == NO_ID {
    } else {
      var ids := InfoRoleIDs(Find(s.members, (w, u)));
      assert RoleIDs(NO_ROLES) == [];
      assert RoleIDs(ws.roles) == ids && RoleIDs(wt.roles) == ids;
      var g := Granted(ws, a);
      ProjectRulesReach(g, s, u, p, ids, a);
      ProjectRulesReach(g, t, u, p, ids, a);
      RulesNotRaised(g, s, t, Resource(ProjectKind, p), u, ids, a);
    }
  }

  /** Nobody is let into a project while no rule raises In this project there. */
  lemma NotLetIn(s: Store, t: Store, view: Option<Id>, u: Id, w: Id, p: Id)
    requires WroteOnly(s, t, ProjectKind) && NotRaised(s, t, Resource(ProjectKind, p), ProjectsOpen)
    ensures Hidden(LayersFor(s, view, u, w, p)) ==> Hidden(LayersFor(t, view, u, w, p))
  {
    if (view.Some? && w != view.value) || w == NO_ID || p == NO_ID {
    } else {
      var ids := InfoRoleIDs(Find(s.members, (w, u)));
      assert RoleIDs(NO_ROLES) == [];
      var none := Verdict(false, NO_SOURCE);
      ProjectRulesReach(none, s, u, p, ids, ProjectsOpen);
      ProjectRulesReach(none, t, u, p, ids, ProjectsOpen);
      RulesNotRaised(none, s, t, Resource(ProjectKind, p), u, ids, ProjectsOpen);
    }
  }

  lemma MachineHolderKept(s: Store, t: Store, view: Option<Id>, u: Id, m: Id)
    requires WroteOnly(s, t, MachineKind)
    ensures var h, g := HolderOf(s, view, u, m), HolderOf(t, view, u, m);
            g == h.(rules := g.rules) && AllHeld(s, u, h.roleIDs) && AllHeld(t, u, h.roleIDs)
  {
    var workspaceIDs := WorkspacesOf(s, view, u);
    forall i | 0 <= i < |workspaceIDs|
      ensures LayersFor(t, view, u, workspaceIDs[i], NO_ID) == LayersFor(s, view, u, workspaceIDs[i], NO_ID) {
      LayersKept(s, t, MachineKind, view, u, workspaceIDs[i], NO_ID);
    }
    assert LayersAcross(t, view, u, workspaceIDs) == LayersAcross(s, view, u, workspaceIDs);
    AcrossRolesHeld(s, view, u, workspaceIDs);
    HeldIn(s, t, u, HolderOf(s, view, u, m).roleIDs);
  }

  /** On a machine: with no rule raised for the action, only someone who came to see it can come to hold it. */
  lemma MachineNotRaised(s: Store, t: Store, view: Option<Id>, u: Id, m: Id, a: Action)
    requires WroteOnly(s, t, MachineKind) && NotRaised(s, t, Resource(MachineKind, m), a)
    ensures var before, after := MachineView(s, view, u, m, a, false), MachineView(t, view, u, m, a, false);
            after.held ==> before.held || (a != MachinesSee && !before.seen && after.seen)
  {
    var on := Resource(MachineKind, m);
    MachineHolderKept(s, t, view, u, m);
    var h := HolderOf(s, view, u, m);
    if h.known && h.owner.None? {
      var notOn := Verdict(false, SourceOf(NotOnMachine, on, h.target, false));
      RulesOnReach(notOn, s, on, u, h.roleIDs, MachinesSee);
      RulesOnReach(notOn, t, on, u, h.roleIDs, MachinesSee);
      if a == MachinesSee {
        RulesNotRaised(notOn, s, t, on, u, h.roleIDs, a);
      }
      var bits := BitsAnswer(h.bits, a);
      RulesOnReach(bits, s, on, u, h.roleIDs, a);
      RulesOnReach(bits, t, on, u, h.roleIDs, a);
      RulesNotRaised(bits, s, t, on, u, h.roleIDs, a);
    }
  }

  lemma ReachedWroteOnly(s: Store, c: Call, t: Store)
    requires Reached(s, c, t)
    ensures WroteOnly(s, t, c.kind)
  {
    forall k: Key | k.on.kind != c.kind ensures Find(t.rules, k) == Find(s.rules, k) {
      ReachedRows(s, c, t, k);
    }
  }

  lemma LackedRowIsNotRaised(s: Store, c: Call, t: Store, k: Key, a: Action)
    requires Reached(s, c, t) && DisjointRules(s.rules) && !Holds(s, c.view, c.actor, k.on, a)
    ensures Rank(StateAt(t, k, a)) <= Rank(StateAt(s, k, a))
  {
    var row := RowAt(s.rules, k);
    ReachedRows(s, c, t, k);
    MoveAllLands(row, c.actions, c.st, a);
    if Named(c, k) && a in c.actions {
      NamedIsAuthorised(s, c, k);
      assert !Gives(row, MoveTo(row, a, c.st), a);
      MoveToLands(row, a, c.st, a);
    }
  }

  lemma NamedIsAuthorised(s: Store, c: Call, k: Key)
    requires PlanOf(s, c).Ok? && Named(c, k)
    ensures Authorised(s, c.view, c.actor, k, c.actions, c.st)
  {
    AllPlanned(s, c.view, c.actor, c.kind, c.ids, c.to, c.actions, c.st);
  }

  /** An action the actor does not hold on an entity is raised for nobody there. */
  lemma LackedIsNotRaised(s: Store, c: Call, t: Store, on: Resource, a: Action)
    requires Reached(s, c, t) && DisjointRules(s.rules) && !Holds(s, c.view, c.actor, on, a)
    ensures NotRaised(s, t, on, a)
  {
    forall x: Target ensures Rank(StateAt(t, Key(on, x), a)) <= Rank(StateAt(s, Key(on, x), a)) {
      LackedRowIsNotRaised(s, c, t, Key(on, x), a);
    }
  }

  /** The write let `u` into a project they were not in, or made them see a machine they did not. */
  ghost predicate LetIn(s: Store, t: Store, view: Option<Id>, u: Id, on: Resource) {
    match on.kind
    case ProjectKind =>
      var w := WorkspaceOfEntity(s, on);
      Hidden(LayersFor(s, view, u, w, on.id)) && !Hidden(LayersFor(t, view, u, w, on.id))
    case MachineKind => !MachineView(s, view, u, on.id, MachinesSee, false).seen &&
                        MachineView(t, view, u, on.id, MachinesSee, false).seen
    case _ => false
  }

  function LettingIn(on: Resource): Action {
    if on.kind == MachineKind then MachinesSee else ProjectsOpen
  }

  lemma SeenIsOneAnswer(s: Store, view: Option<Id>, u: Id, m: Id, a: Action)
    ensures MachineView(s, view, u, m, a, false).seen == MachineView(s, view, u, m, MachinesSee, false).seen
  {
  }

  lemma MachineWriteGives(s: Store, c: Call, t: Store, view: Option<Id>, u: Id, m: Id, a: Action)
    requires Reached(s, c, t) && DisjointRules(s.rules) && c.kind == MachineKind
    requires var on := Resource(MachineKind, m);
             Holds(t, view, u, on, a) && !Holds(s, view, u, on, a) && !Holds(s, c.view, c.actor, on, a)
    ensures var on := Resource(MachineKind, m); LetIn(s, t, view, u, on) && Holds(s, c.view, c.actor, on, MachinesSee)
  {
    var on := Resource(MachineKind, m);
    ReachedWroteOnly(s, c, t);
    LackedIsNotRaised(s, c, t, on, a);
    MachineNotRaised(s, t, view, u, m, a);
    SeenIsOneAnswer(s, view, u, m, a);
    SeenIsOneAnswer(t, view, u, m, a);
    if !Holds(s, c.view, c.actor, on, MachinesSee) {
      LackedIsNotRaised(s, c, t, on, MachinesSee);
      MachineNotRaised(s, t, view, u, m, MachinesSee);
    }
  }

  /**
   No write gives what its author lacks: whoever newly holds an action on an entity at any point of storing a write,
   the last one and one left by a failure included, got one the actor held there before, unless the write let them in,
   and then the actor held In this project, or See, there.
   */
  lemma NoWriteGivesWhatItsAuthorLacks(s: Store, c: Call, t: Store, view: Option<Id>, u: Id, id: Id, a: Action)
    requires Reached(s, c, t) && DisjointRules(s.rules)
    requires c.kind != AreaKind
    requires var on := Resource(c.kind, id); Holds(t, view, u, on, a) && !Holds(s, view, u, on, a)
    ensures var on := Resource(c.kind, id);
            || Holds(s, c.view, c.actor, on, a)
            || (LetIn(s, t, view, u, on) && Holds(s, c.view, c.actor, on, LettingIn(on)))
  {
    var on := Resource(c.kind, id);
    ReachedWroteOnly(s, c, t);
    var w := if on.kind == DocKind then DocScopeOf(s, id).workspaceID else WorkspaceOfEntity(s, on);
    if !Holds(s, c.view, c.actor, on, a) {
      LackedIsNotRaised(s, c, t, on, a);
      if c.kind == ProjectKind {
        ProjectNotRaised(s, t, view, u, w, id, a);
        if !Holds(s, c.view, c.actor, on, ProjectsOpen) {
          LackedIsNotRaised(s, c, t, on, ProjectsOpen);
          NotLetIn(s, t, view, u, w, id);
        }
      } else if c.kind == MachineKind {
        MachineWriteGives(s, c, t, view, u, id, a);
      } else if c.kind == ChannelKind && a == CHANNELS_READ {
        ChannelReadNotRaised(s, t, view, u, w, id);
      } else {
        InsideNotRaised(s, t, view, u, w, ProjectOf(s, on), on, a);
      }
    }
  }
}
