/**
 The checks as they are really made: of reads, each told from the memo or from the store. While no commit comes
 between, a check made of such answers is the check of the store.
 */
module MemoChecks {
  import opened Options
  import opened AccessModel
  import opened Evaluator
  import opened AccessStore
  import opened Memo

  /** What a check is told for each read it makes. */
  type Reads = ReadKey -> Read

  function ScopeIn(r: Read): DocScope {
    if r.Found? && r.value.DocValue? then r.value.scope else NO_DOC
  }

  function RulesIn(r: Read): Option<Rules> {
    if r.Found? && r.value.RulesValue? then Some(r.value.reaching) else None
  }

  function IdIn(r: Read): Id {
    if r.Found? && r.value.IdValue? then r.value.id else NO_ID
  }

  function ChainBy(f: Reads, on: Resource, u: Id): seq<Option<Rules>> {
    if on.id == NO_ID || on.kind == ProjectKind || on.kind == WorkspaceKind then []
    else if on.kind == DocKind then
      var r := f(DocRulesKey(on.id, u));
      if r.Found? && r.value.DocRulesValue? then [r.value.folder, r.value.doc] else []
    else [RulesIn(f(RulesKey(on, u)))]
  }

  function LayersBy(f: Reads, view: Option<Id>, u: Id, w: Id, p: Id): Layers {
    if view.Some? && w != view.value then BuildLayers(u, w, p, None, None)
    else
      var r := f(LayersKey(u, w, p));
      if r.Found? && r.value.LayersValue? then r.value.ws else BuildLayers(u, w, p, None, None)
  }

  /** A channel's read from its scope and its rules. */
  function ChannelReadBy(f: Reads, view: Option<Id>, u: Id, w: Id, c: Id): Verdict {
    var ws, on, r := LayersBy(f, view, u, w, NO_ID), Resource(ChannelKind, c), f(ChannelKey(c));
    if ws.owner || !ws.member then Decide(ws, CHANNELS_READ, [])
    else if !(r.Found? && r.value.ChannelValue?) || (r.value.channel.isPrivate && u !in r.value.channel.memberIDs) then
      Verdict(false, SourceOf(ChannelMember, on, Person(u), false))
    else
      var kind := if r.value.channel.isPrivate then ChannelMember else EveryMember;
      ApplyRules(Verdict(true, SourceOf(kind, on, Person(u), true)), RulesIn(f(RulesKey(on, u))), RoleIDs(ws.roles),
                 CHANNELS_READ)
  }

  function CheckBy(f: Reads, view: Option<Id>, u: Id, w: Id, p: Id, a: Action, on: Resource): Verdict {
    if on.kind == ChannelKind && a == CHANNELS_READ then ChannelReadBy(f, view, u, w, on.id)
    else Decide(LayersBy(f, view, u, w, p), a, ChainBy(f, on, u))
  }

  /** The project an entity lies in, or is, as read. */
  function ProjectBy(f: Reads, on: Resource): Id {
    match on.kind
    case ProjectKind => on.id
    case DocKind => ScopeIn(f(DocKey(on.id))).projectID
    case FolderKind => ScopeIn(f(FolderKey(on.id))).projectID
    case StackKind =>
      var r := f(StackKey(on.id));
      if r.Found? && r.value.StackValue? then r.value.stack.projectID else NO_ID
    case _ => NO_ID
  }

  predicate HasPermissionBy(f: Reads, view: Option<Id>, u: Id, w: Id, a: Action, on: Resource) {
    u != NO_ID && CheckBy(f, view, u, w, ProjectBy(f, on), a, on).allowed
  }

  predicate CanBy(f: Reads, view: Option<Id>, u: Id, d: Id, a: Action) {
    HasPermissionBy(f, view, u, ScopeIn(f(DocKey(d))).workspaceID, a, Resource(DocKind, d))
  }

  predicate CanInProjectBy(f: Reads, view: Option<Id>, u: Id, p: Id, a: Action) {
    u != NO_ID && f(ProjectKey(p)).Found? && CheckBy(f, view, u, IdIn(f(ProjectKey(p))), p, a, NOTHING).allowed
  }

  ghost predicate AnswersOf(f: Reads, s: Store) {
    forall k :: f(k) == Answer(s, k)
  }

  lemma ReadsMakeTheChain(f: Reads, s: Store, on: Resource, u: Id)
    requires AnswersOf(f, s)
    ensures ChainBy(f, on, u) == ChainOf(s, on, u)
  {
    assert f(DocRulesKey(on.id, u)) == Answer(s, DocRulesKey(on.id, u));
    assert f(RulesKey(on, u)) == Answer(s, RulesKey(on, u));
  }

  lemma ReadsMakeTheLayers(f: Reads, s: Store, view: Option<Id>, u: Id, w: Id, p: Id)
    requires AnswersOf(f, s)
    ensures LayersBy(f, view, u, w, p) == LayersFor(s, view, u, w, p)
  {
    assert f(LayersKey(u, w, p)) == Answer(s, LayersKey(u, w, p));
  }

  lemma ReadsMakeTheChannelRead(f: Reads, s: Store, view: Option<Id>, u: Id, w: Id, c: Id)
    requires AnswersOf(f, s)
    ensures ChannelReadBy(f, view, u, w, c) == ChannelRead(s, view, u, w, c, true)
  {
    ReadsMakeTheLayers(f, s, view, u, w, NO_ID);
    assert f(ChannelKey(c)) == Answer(s, ChannelKey(c));
    assert f(RulesKey(Resource(ChannelKind, c), u)) == Answer(s, RulesKey(Resource(ChannelKind, c), u));
  }

  /** A check made of one store's answers is that store's check, source included. */
  lemma ReadsMakeTheCheck(f: Reads, s: Store, view: Option<Id>, u: Id, w: Id, p: Id, a: Action, on: Resource)
    requires AnswersOf(f, s)
    ensures CheckBy(f, view, u, w, p, a, on) == Check(s, view, u, w, p, a, on)
  {
    ReadsMakeTheLayers(f, s, view, u, w, p);
    ReadsMakeTheChain(f, s, on, u);
    ReadsMakeTheChannelRead(f, s, view, u, w, on.id);
  }

  lemma ReadsFindTheProject(f: Reads, s: Store, on: Resource)
    requires AnswersOf(f, s)
    ensures ProjectBy(f, on) == ProjectOf(s, on)
    ensures ScopeIn(f(DocKey(on.id))) == DocScopeOf(s, on.id)
  {
    assert f(DocKey(on.id)) == Answer(s, DocKey(on.id));
    assert f(FolderKey(on.id)) == Answer(s, FolderKey(on.id));
    assert f(StackKey(on.id)) == Answer(s, StackKey(on.id));
  }

  /** No commit comes from step `n` to step `m`, and every one before is announced. */
  ghost predicate Quiet(states: seq<Sys>, n: nat, m: nat) {
    n <= m < |states| &&
    forall i :: n <= i <= m ==>
                  && states[i].history != [] && states[i].history == states[n].history
                  && Commits(states[i]) == states[i].notified
  }

  /** Each read is told by a hit of the memo, or by the store, at some instant from `n` to `m`. */
  ghost predicate ToldBetween(states: seq<Sys>, n: nat, m: nat, f: Reads)
    requires Quiet(states, n, m)
  {
    forall k :: f(k) == Answer(Current(states[n]), k) || exists i :: n <= i <= m && Hit(states[i], k) == Some(f(k))
  }

  lemma ToldIsTheStores(states: seq<Sys>, steps: seq<Step>, n: nat, m: nat, f: Reads)
    requires Run(states, steps) && Quiet(states, n, m) && ToldBetween(states, n, m, f)
    ensures AnswersOf(f, Current(states[n]))
  {
    forall k ensures f(k) == Answer(Current(states[n]), k) {
      if i :| n <= i <= m && Hit(states[i], k) == Some(f(k)) {
        HitsAreExact(states, steps, i, k);
      }
    }
  }

  /**
   Memo coherence, as a check sees it: over any run, every check whose reads are told by the memo or by the store while
   no commit comes between is the check of the store itself, its source included.
   */
  lemma ChecksFromTheMemoAreTheStores(
    states: seq<Sys>, steps: seq<Step>, n: nat, m: nat, f: Reads, view: Option<Id>, u: Id, w: Id, p: Id, a: Action,
    on: Resource)
    requires Run(states, steps) && Quiet(states, n, m) && ToldBetween(states, n, m, f)
    ensures var s := Current(states[n]);
            && CheckBy(f, view, u, w, p, a, on) == Check(s, view, u, w, p, a, on)
            && (HasPermissionBy(f, view, u, w, a, on) <==> HasPermission(s, view, u, w, a, on))
            && (CanBy(f, view, u, on.id, a) <==> Can(s, view, u, on.id, a))
            && (CanInProjectBy(f, view, u, p, a) <==> CanInProject(s, view, u, p, a))
  {
    var s := Current(states[n]);
    ToldIsTheStores(states, steps, n, m, f);
    ReadsMakeTheCheck(f, s, view, u, w, p, a, on);
    PermissionByReads(f, s, view, u, w, a, on);
    DocByReads(f, s, view, u, on.id, a);
    ProjectByReads(f, s, view, u, p, a);
  }

  lemma PermissionByReads(f: Reads, s: Store, view: Option<Id>, u: Id, w: Id, a: Action, on: Resource)
    requires AnswersOf(f, s)
    ensures HasPermissionBy(f, view, u, w, a, on) <==> HasPermission(s, view, u, w, a, on)
  {
    ReadsFindTheProject(f, s, on);
    ReadsMakeTheCheck(f, s, view, u, w, ProjectOf(s, on), a, on);
  }

  lemma DocByReads(f: Reads, s: Store, view: Option<Id>, u: Id, d: Id, a: Action)
    requires AnswersOf(f, s)
    ensures CanBy(f, view, u, d, a) <==> Can(s, view, u, d, a)
  {
    ReadsFindTheProject(f, s, Resource(DocKind, d));
    PermissionByReads(f, s, view, u, DocScopeOf(s, d).workspaceID, a, Resource(DocKind, d));
  }

  lemma ProjectByReads(f: Reads, s: Store, view: Option<Id>, u: Id, p: Id, a: Action)
    requires AnswersOf(f, s)
    ensures CanInProjectBy(f, view, u, p, a) <==> CanInProject(s, view, u, p, a)
  {
    assert f(ProjectKey(p)) == Answer(s, ProjectKey(p));
    ReadsMakeTheCheck(f, s, view, u, IdIn(f(ProjectKey(p))), p, a, NOTHING);
  }
}
