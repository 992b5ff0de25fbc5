/** Moving an action on one stored rule to a state, and storing the result; a rule left empty is deleted. */
module RuleRows {
  import opened Options
  import opened AccessModel
  import opened Evaluator
  import opened AccessStore

  /** The states a write may move an action to; Revoke and Lift are the two older writes. */
  datatype WriteState = SetAllow | SetDeny | SetFallback | Revoke | Lift

  const EMPTY_ROW := Row({}, {})

  function MoveTo(r: Row, a: Action, st: WriteState): Row {
    match st
    case SetAllow => Row(r.allow + {a}, r.deny - {a})
    case SetDeny => Row(r.allow - {a}, r.deny + {a})
    case Revoke => Row(r.allow - {a}, r.deny)
    case Lift => Row(r.allow, r.deny - {a})
    case SetFallback => Row(r.allow - {a}, r.deny - {a})
  }

  function RowState(r: Row, a: Action): State {
    if a in r.deny then Deny else if a in r.allow then Allow else Fallback
  }

  /** The state an action ends in after a write, from the one it had. */
  function Moved(from: State, st: WriteState): State {
    match st
    case SetAllow => Allow
    case SetDeny => Deny
    case SetFallback => Fallback
    case Revoke => if from == Allow then Fallback else from
    case Lift => if from == Deny then Fallback else from
  }

  predicate DisjointRow(r: Row) {
    r.allow !! r.deny
  }

  ghost predicate DisjointRules(rules: map<Key, Row>) {
    forall k :: k in rules ==> DisjointRow(rules[k])
  }

  /** Upsert, or delete when both sets are empty. */
  function Stored(rules: map<Key, Row>, k: Key, r: Row): map<Key, Row> {
    if r == EMPTY_ROW then rules - {k} else rules[k := r]
  }

  function RowAt(rules: map<Key, Row>, k: Key): Row {
    if k in rules then rules[k] else EMPTY_ROW
  }

  /** The store after one target's rule on an entity is really moved to Fallback for one action. */
  function AfterFallback(s: Store, k: Key, a: Action): Store {
    if k in s.rules then s.(rules := Stored(s.rules, k, MoveTo(s.rules[k], a, SetFallback))) else s
  }

  /** A move keeps allow and deny apart, lands the action where it should, and touches no other action. */
  lemma MoveToLands(r: Row, a: Action, st: WriteState, b: Action)
    requires DisjointRow(r)
    ensures DisjointRow(MoveTo(r, a, st))
    ensures RowState(MoveTo(r, a, st), b) == if b == a then Moved(RowState(r, a), st) else RowState(r, b)
  {
  }
}
