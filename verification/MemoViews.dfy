/**
 One memo shared by pinned and unpinned requests: what it keeps is a function of key and store alone, and each request
 is told what it would be told with nobody else about.
 */
module MemoViews {
  import opened Options
  import opened AccessModel
  import opened Evaluator
  import opened AccessStore
  import opened Reach
  import opened Memo
  import opened ViewAs

  /** The person a read of memberships or layers is about. */
  function About(k: ReadKey): Option<Id> {
    match k
    case MemberKey(_, u) => Some(u)
    case MembershipKey(u) => Some(u)
    case LayersKey(u, _, _) => Some(u)
    case _ => None
  }

  /** The store as a request sees it: a pinned one as if the person belonged to its workspace alone. */
  function Seen(s: Store, view: Option<Id>, k: ReadKey): Store {
    if view.Some? && About(k).Some? then OnlyIn(s, About(k).value, view.value) else s
  }

  /**
   A pinned request's own store and the whole one, its list of workspaces filtered after the lookup, answer it alike.
   */
  lemma ToldAsSeen(s: Store, view: Option<Id>, k: ReadKey)
    requires MayAsk(view, k)
    ensures Told(view, k, Answer(s, k)) == Answer(Seen(s, view, k), k)
  {
    if view.Some? {
      match k
      case MemberKey(w, u) => PinnedMembership(s, u, view.value, w);
      case LayersKey(u, w, p) =>
        PinnedMembership(s, u, view.value, w);
        ReachingPinned(s, u, view.value, Resource(ProjectKind, p), InfoRoleIDs(Find(s.members, (w, u))));
      case _ =>
    }
  }

  /** A person's workspaces as the checks list them are the memo's, told. */
  lemma ToldWorkspaces(s: Store, view: Option<Id>, u: Id)
    requires u != NO_ID
    ensures Told(view, MembershipKey(u), Answer(s, MembershipKey(u))) == Found(IdsValue(WorkspacesOf(s, view, u)))
  {
  }

  /**
   View-as over one memo: in any run of pinned and unpinned requests together, whenever every commit is announced, a
   hit told to a request is what the store it sees answers, whoever left the entry.
   */
  lemma HitsAreToldAsSeen(states: seq<Sys>, steps: seq<Step>, n: nat, view: Option<Id>, k: ReadKey)
    requires Run(states, steps) && n < |states| && MayAsk(view, k)
    requires states[n].history != [] && Commits(states[n]) == states[n].notified
    ensures Hit(states[n], k).Some? ==>
              Told(view, k, Hit(states[n], k).value) == Answer(Seen(Current(states[n]), view, k), k)
  {
    HitsAreExact(states, steps, n, k);
    ToldAsSeen(Current(states[n]), view, k);
  }

  /** A call asks only what its request may. */
  ghost predicate AsksItsOwn(y: Sys) {
    forall id :: id in y.threads && y.threads[id].Plain? ==> forall k :: k in y.threads[id].frame.keys ==>
                                                                           MayAsk(y.threads[id].view, k)
  }

  lemma {:induction false} CallsAskTheirOwn(states: seq<Sys>, steps: seq<Step>, n: nat)
    requires Run(states, steps) && n < |states|
    ensures AsksItsOwn(states[n])
  {
    if n > 0 {
      CallsAskTheirOwn(states, steps, n - 1);
      StepAsksItsOwn(states[n - 1], steps[n - 1]);
    }
  }

  lemma StepAsksItsOwn(y: Sys, step: Step)
    requires AsksItsOwn(y) && Enabled(y, step)
    ensures AsksItsOwn(Apply(y, step))
  {
  }

  /**
   Every finished call is told what the store it sees answered at some instant inside the call, or one commit earlier
   when a commit awaited its announcement as it began.
   */
  lemma CallsAreToldAsSeen(states: seq<Sys>, steps: seq<Step>, n: nat, id: nat, k: ReadKey) returns (i: nat)
    requires Run(states, steps) && n < |states| && id in states[n].threads && states[n].history != []
    requires var t := states[n].threads[id]; t.Plain? && t.frame.phase.Returned? && k in t.frame.keys && !k.LayersKey?
    ensures var t := states[n].threads[id];
            && k in t.frame.out
            && t.frame.begun - 1 <= t.frame.announced <= i <= Commits(states[n])
            && Told(t.view, k, t.frame.out[k]) == Answer(Seen(states[n].history[i], t.view, k), k)
  {
    AnswersComeFromInsideTheCall(states, steps, n, id, k);
    CallsAskTheirOwn(states, steps, n);
    var t := states[n].threads[id];
    var h := states[n].history;
    i :| t.frame.announced <= i <= Commits(states[n]) && i < |h| && Answer(h[i], k) == t.frame.out[k];
    ToldAsSeen(h[i], t.view, k);
  }
}
