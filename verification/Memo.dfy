/**
 The request memo: a cache of access reads shared by the concurrent checks of one request, dropped at the next commit.
 A run is any interleaving of commits, their announcements, and the get, read and put steps of any number of calls. A
 commit becomes visible first and closes the fence after (its Notify), as the storage serializer orders them, so the
 theorems separate what holds once every commit is announced from what holds in between.
 */
module Memo {
  import opened Options
  import opened AccessModel
  import opened Evaluator
  import opened AccessStore

  /** One kind of read per constructor, so two kinds never share an entry. */
  datatype ReadKey =
    | MemberKey(w: Id, u: Id)
    | MembershipKey(u: Id)
    | OwnRuleKey(p: Id, u: Id)
    | RoleRulesKey(p: Id, roleIDs: seq<Id>)
    | RulesKey(on: Resource, u: Id)
    | ProjectKey(p: Id)
    | DocKey(d: Id)
    | DocRulesKey(d: Id, u: Id)
    | FolderKey(f: Id)
    | StackKey(id: Id)
    | ChannelKey(c: Id)
    | LayersKey(u: Id, w: Id, p: Id)

  datatype Value =
    | InfoValue(info: RoleInfo)
    | RuleValue(rule: Rule)
    | RoleRulesValue(rules: seq<Rule>)
    | RulesValue(reaching: Rules)
    | IdValue(id: Id)
    | IdsValue(ids: seq<Id>)
    | DocValue(scope: DocScope)
    | DocRulesValue(folder: Option<Rules>, doc: Option<Rules>)
    | StackValue(stack: StackScope)
    | ChannelValue(channel: ChannelScope)
    | LayersValue(ws: Layers)

  /** Not found is an answer and may be kept; a failure is not. */
  datatype Read = Found(value: Value) | Missing | Failed

  /** What the store answers for a key. */
  function Answer(s: Store, k: ReadKey): Read {
    match k
    case MemberKey(w, u) => if (w, u) in s.members then Found(InfoValue(s.members[(w, u)])) else Missing
    case MembershipKey(u) => Found(IdsValue(FindOr(s.memberships, u, [])))
    case OwnRuleKey(p, u) =>
      var r := RuleAt(s, Key(Resource(ProjectKind, p), Person(u)));
      if r.Some? then Found(RuleValue(r.value)) else Missing
    case RoleRulesKey(p, roleIDs) =>
      var rules := RoleRules(s, Resource(ProjectKind, p), roleIDs);
      if rules == [] then Missing else Found(RoleRulesValue(rules))
    case RulesKey(on, u) =>
      var r := RulesOn(s, on, u);
      if r.Some? then Found(RulesValue(r.value)) else Missing
    case ProjectKey(p) => if p in s.projects then Found(IdValue(s.projects[p])) else Missing
    case DocKey(d) => if d in s.docs then Found(DocValue(s.docs[d])) else Missing
    case DocRulesKey(d, u) =>
      var f, own := DocScopeOf(s, d).folderID, RulesOn(s, Resource(DocKind, d), u);
      var inFolder := if f == NO_ID then None else RulesOn(s, Resource(FolderKind, f), u);
      if inFolder.None? && own.None? then Missing else Found(DocRulesValue(inFolder, own))
    case FolderKey(f) => if f in s.folders then Found(DocValue(s.folders[f])) else Missing
    case StackKey(id) => if id in s.stacks then Found(StackValue(s.stacks[id])) else Missing
    case ChannelKey(c) => if c in s.channels then Found(ChannelValue(s.channels[c])) else Missing
    case LayersKey(u, w, p) => Found(LayersValue(ReadLayers(s, u, w, p)))
  }

  // ------------------------------------------------------------------ the memo

  /** `fence` is the epoch whose Notify closes it; `since` is how many commits were visible when the fence was taken. */
  datatype MemoState = MemoState(fence: nat, since: nat, kept: map<ReadKey, Read>)

  function Refreshed(m: MemoState, notified: nat, commits: nat): MemoState {
    if m.fence < notified then MemoState(notified, commits, map[]) else m
  }

  function Kept(m: MemoState, fence: nat, k: ReadKey, r: Read): MemoState {
    if r == Failed || fence != m.fence then m else m.(kept := m.kept[k := r])
  }

  /** The memo as it is: a fence and a map, changed under one lock. */
  class RequestMemo {
    var fence: nat
    var entries: map<ReadKey, Read>
    ghost var since: nat

    ghost function State(): MemoState
      reads this
    {
      MemoState(fence, since, entries)
    }

    constructor (notified: nat, ghost commits: nat)
      ensures State() == MemoState(notified, commits, map[])
    {
      fence, entries, since := notified, map[], commits;
    }

    /** A key's answer and the fence it is valid under, first dropping everything if a commit has been announced. */
    method Get(k: ReadKey, notified: nat, ghost commits: nat) returns (f: nat, r: Option<Read>)
      modifies this
      ensures State() == Refreshed(old(State()), notified, commits)
      ensures f == fence && r == Find(entries, k)
    {
      if fence < notified {
        fence, entries, since := notified, map[], commits;
      }
      f, r := fence, Find(entries, k);
    }

    /** Keeps an answer read under a fence; one read before an announcement the memo has since seen is thrown away. */
    method Put(f: nat, k: ReadKey, r: Read)
      modifies this
      ensures State() == Kept(old(State()), f, k, r)
    {
      if r == Failed {
        return;
      }
      if f == fence {
        entries := entries[k := r];
      }
    }
  }

  // ------------------------------------------------------------------ calls in flight

  datatype Phase = Getting | Reading | Putting(got: map<ReadKey, Read>, at: nat, left: seq<ReadKey>) | Returned | Broken

  /**
   A remembered read of some keys. `begun` and `announced` are the commits visible and announced when it began;
   `anchor` is the fence of the call it is part of.
   */
  datatype Frame = Frame(keys: seq<ReadKey>, fence: nat, missing: seq<ReadKey>, out: map<ReadKey, Read>, phase: Phase,
                         begun: nat, announced: nat, anchor: nat, asked: nat)

  /**
   What reading layers has gathered: membership, the person's own rule on the project, and its rules for their roles.
   */
  datatype Parts = Parts(info: Read, own: Read, roles: Read)

  const NO_PARTS := Parts(Missing, Missing, Missing)

  datatype Stage = AskMember | AskOwn | AskRoles | Build

  datatype Thread =
    | Plain(view: Option<Id>, frame: Frame)
    | Layered(key: ReadKey, fence: nat, stage: Stage, parts: Parts, failed: bool, frame: Frame)

  datatype Sys = Sys(history: seq<Store>, notified: nat, memo: MemoState, threads: map<nat, Thread>)

  function Commits(y: Sys): nat
    requires y.history != []
  {
    |y.history| - 1
  }

  function Current(y: Sys): Store
    requires y.history != []
  {
    y.history[|y.history| - 1]
  }

  predicate Init(y: Sys) {
    |y.history| == 1 && y.notified == 0 && y.memo == MemoState(0, 0, map[]) && y.threads == map[]
  }

  function NewFrame(y: Sys, keys: seq<ReadKey>, anchor: nat): Frame
    requires y.history != []
  {
    Frame(keys, 0, [], map[], if keys == [] then Returned else Getting, Commits(y), y.notified, anchor, 0)
  }

  /** A call whose one key was kept. */
  function FoundAtOnce(y: Sys, key: ReadKey, r: Read): Frame
    requires y.history != []
  {
    NewFrame(y, [], 0).(keys := [key], out := map[key := r], asked := 1)
  }

  /** What a call hands its request: a pinned one keeps of a person's workspaces only its own, after the lookup. */
  function Told(view: Option<Id>, k: ReadKey, r: Read): Read {
    if view.Some? && k.MembershipKey? && r.Found? && r.value.IdsValue?
    then Found(IdsValue(Among(r.value.ids, [view.value])))
    else r
  }

  /** The membership the parts give: none when it is missing or its read failed. */
  function InfoOf(r: Read): Option<RoleInfo> {
    if r.Found? && r.value.InfoValue? then Some(r.value.info) else None
  }

  function RulesOfParts(parts: Parts): Option<Rules> {
    var own := if parts.own.Found? && parts.own.value.RuleValue? then Some(parts.own.value.rule) else None;
    var roles := if parts.roles.Found? && parts.roles.value.RoleRulesValue? then parts.roles.value.rules else [];
    if own.None? && roles == [] then None else Some(Rules(own, roles))
  }

  function LayersOf(k: ReadKey, parts: Parts): Layers
    requires k.LayersKey?
  {
    BuildLayers(k.u, k.w, k.p, InfoOf(parts.info), RulesOfParts(parts))
  }

  function RoleIDsOfParts(parts: Parts): seq<Id> {
    InfoRoleIDs(InfoOf(parts.info))
  }

  /** The inner read each stage makes. */
  function Ask(k: ReadKey, stage: Stage, parts: Parts): seq<ReadKey>
    requires k.LayersKey?
  {
    match stage
    case AskMember => if k.w == NO_ID then [] else [MemberKey(k.w, k.u)]
    case AskOwn => if k.w == NO_ID || k.p == NO_ID then [] else [OwnRuleKey(k.p, k.u)]
    case AskRoles => if k.w == NO_ID || k.p == NO_ID || RoleIDsOfParts(parts) == [] then []
    else [RoleRulesKey(k.p, RoleIDsOfParts(parts))]
    case Build => []
  }

  function Later(stage: Stage): Stage {
    match stage case AskMember => AskOwn case AskOwn => AskRoles case AskRoles => Build case Build => Build
  }

  // ------------------------------------------------------------------ steps

  /**
   Commit makes a new store visible; Notify announces it. Begin starts a remembered read of some keys, BeginLayers one
   of layers, each by a request that may be pinned to a workspace. Get, Fetch and Put are a call's steps; Advance
   hands an inner read's answer to the layers being built, and Finish keeps them.
   */
  datatype Step =
    | Commit(store: Store)
    | Notify
    | Begin(id: nat, view: Option<Id>, keys: seq<ReadKey>)
    | BeginLayers(id: nat, view: Option<Id>, key: ReadKey)
    | Get(id: nat)
    | Fetch(id: nat, fails: bool)
    | Put(id: nat)
    | Advance(id: nat)
    | Finish(id: nat)

  /**
   A pinned request asks about memberships and layers of its own workspace only; elsewhere it answers without the
   memo.
   */
  predicate MayAsk(view: Option<Id>, k: ReadKey) {
    view.None? || match k case MemberKey(w, _) => w == view.value case LayersKey(_, w, _) => w ==
                                                                                             view.value case _ => true
  }

  predicate Enabled(y: Sys, step: Step) {
    && y.history != []
    && match step
       case Commit(_) => Commits(y) == y.notified
       case Notify => Commits(y) > y.notified
       case Begin(id, view, keys) => id !in y.threads && keys != [] &&
                                     forall k :: k in keys ==>
                                                   !k.LayersKey? &&
                                                   MayAsk(view, k)
       case BeginLayers(id, view, key) => id !in y.threads && key.LayersKey? && MayAsk(view, key)
       case Get(id) => id in y.threads && y.threads[id].frame.phase.Getting? &&
                       y.threads[id].frame.asked < |y.threads[id].frame.keys|
       case Fetch(id, _) => id in y.threads && y.threads[id].frame.phase.Reading?
       case Put(id) => id in y.threads && y.threads[id].frame.phase.Putting?
       case Advance(id) =>
         && id in y.threads && y.threads[id].Layered? && y.threads[id].stage != Build && y.threads[id].key.LayersKey?
         && (y.threads[id].frame.phase.Returned? || y.threads[id].frame.phase.Broken?)
       case Finish(id) =>
         id in y.threads && y.threads[id].Layered? && y.threads[id].stage == Build &&
         y.threads[id].key.LayersKey?
  }

  function AfterGet(y: Sys, f: Frame): Frame
    requires y.history != [] && f.asked < |f.keys|
  {
    var k := f.keys[f.asked];
    var m := Refreshed(y.memo, y.notified, Commits(y));
    var hit := k in m.kept;
    var missing := if hit then f.missing else f.missing + [k];
    var out := if hit then f.out[k := m.kept[k]] else f.out;
    f.(fence := m.fence, missing := missing, out := out, asked := f.asked + 1,
    phase := if f.asked + 1 < |f.keys| then Getting else if missing == [] then Returned else Reading)
  }

  function AfterFetch(y: Sys, f: Frame, fails: bool): Frame
    requires y.history != []
  {
    if fails then f.(phase := Broken)
    else f.(phase := Putting(map k | k in f.missing :: Answer(Current(y), k), Commits(y), f.missing))
  }

  function AfterPut(f: Frame): Frame
    requires f.phase.Putting?
  {
    if f.phase.left == [] then f.(phase := Returned)
    else
      var k := f.phase.left[0];
      var out := if k in f.phase.got then f.out[k := f.phase.got[k]] else f.out;
      f.(out := out, phase := f.phase.(left := f.phase.left[1..]))
  }

  function MemoAfterPut(m: MemoState, f: Frame): MemoState
    requires f.phase.Putting?
  {
    if f.phase.left != [] && f.phase.left[0] in f.phase.got
    then Kept(m, f.fence, f.phase.left[0], f.phase.got[f.phase.left[0]]) else m
  }

  function WithFrame(t: Thread, f: Frame): Thread {
    t.(frame := f)
  }

  /** The inner answer handed to the layers being built; a failed read of rules ends the gathering. */
  function AfterAdvance(y: Sys, t: Thread): Thread
    requires y.history != [] && t.Layered? && t.key.LayersKey?
  {
    var asked := Ask(t.key, t.stage, t.parts);
    var got := if asked != [] && asked[0] in t.frame.out then t.frame.out[asked[0]] else Missing;
    var broke := t.frame.phase.Broken?;
    var answer := if broke then Missing else got;
    var parts :=
      match t.stage
      case AskMember => t.parts.(info := answer)
      case AskOwn => t.parts.(own := answer)
      case AskRoles => t.parts.(roles := answer)
      case Build => t.parts;
    var ended := broke && t.stage != AskMember;
    var stage := if ended then Build else Later(t.stage);
    var kept := if ended then parts.(own := Missing, roles := Missing) else parts;
    t.(stage := stage, parts := kept, failed := t.failed || broke, frame :=
                                                NewFrame(y, Ask(t.key, stage, kept), t.fence))
  }

  function Apply(y: Sys, step: Step): Sys
    requires Enabled(y, step)
  {
    match step
    case Commit(s) => y.(history := y.history + [s])
    case Notify => y.(notified := y.notified + 1)
    case Begin(id, view, keys) => y.(threads := y.threads[id := Plain(view, NewFrame(y, keys, 0))])
    case BeginLayers(id, view, key) =>
      var m := Refreshed(y.memo, y.notified, Commits(y));
      if key in m.kept then y.(memo := m, threads := y.threads[id := Plain(view, FoundAtOnce(y, key, m.kept[key]))])
      else y.(memo := m, threads := y.threads[id :=
           Layered(key, m.fence, AskMember, NO_PARTS, false, NewFrame(y, Ask(key, AskMember, NO_PARTS), m.fence))])
    case Get(id) =>
      var t := y.threads[id];
      y.(memo := Refreshed(y.memo, y.notified, Commits(y)), threads :=
      y.threads[id := WithFrame(t, AfterGet(y, t.frame))])
    case Fetch(id, fails) => y.(threads :=
    y.threads[id := WithFrame(y.threads[id], AfterFetch(y, y.threads[id].frame, fails))])
    case Put(id) =>
      var t := y.threads[id];
      y.(memo := MemoAfterPut(y.memo, t.frame), threads := y.threads[id := WithFrame(t, AfterPut(t.frame))])
    case Advance(id) => y.(threads := y.threads[id := AfterAdvance(y, y.threads[id])])
    case Finish(id) =>
      var t := y.threads[id];
      var r := if t.failed then Failed else Found(LayersValue(LayersOf(t.key, t.parts)));
      y.(memo := Kept(y.memo, t.fence, t.key, r), threads := y.threads - {id})
  }

  // ------------------------------------------------------------------ what is kept

  /** `r` was the store's answer for `k` with some number of commits from `lo` to `hi` visible. */
  ghost predicate AnsweredBetween(history: seq<Store>, lo: nat, hi: nat, k: ReadKey, r: Read) {
    exists i :: lo <= i <= hi && i < |history| && Answer(history[i], k) == r
  }

  /** Each part was the store's answer at some point from `lo` to `hi`, perhaps each at its own. */
  ghost predicate PartsBetween(history: seq<Store>, lo: nat, hi: nat, k: ReadKey, parts: Parts, stage: Stage)
    requires k.LayersKey?
  {
    && (stage != AskMember && k.w != NO_ID ==> AnsweredBetween(history, lo, hi, MemberKey(k.w, k.u), parts.info))
    && (stage == AskMember || k.w == NO_ID ==> parts.info == Missing)
    && (stage != AskMember && stage != AskOwn && k.w != NO_ID && k.p != NO_ID ==>
          AnsweredBetween(history, lo, hi, OwnRuleKey(k.p, k.u), parts.own))
    && (stage == AskMember || stage == AskOwn || k.w == NO_ID || k.p == NO_ID ==> parts.own == Missing)
    && (stage == Build && k.w != NO_ID && k.p != NO_ID && RoleIDsOfParts(parts) != [] ==>
          AnsweredBetween(history, lo, hi, RoleRulesKey(k.p, RoleIDsOfParts(parts)), parts.roles))
    && (stage != Build || k.w == NO_ID || k.p == NO_ID || RoleIDsOfParts(parts) == [] ==> parts.roles == Missing)
  }

  /** A kept answer: the store's at some point, or layers built from answers of such points. */
  ghost predicate KeptBetween(history: seq<Store>, lo: nat, hi: nat, k: ReadKey, r: Read) {
    if k.LayersKey? then
      exists parts :: PartsBetween(history, lo, hi, k, parts, Build) &&
                      r == Found(LayersValue(LayersOf(k, parts)))
    else AnsweredBetween(history, lo, hi, k, r)
  }

  /** What a call has asked, found and still misses. */
  ghost predicate FrameShape(f: Frame) {
    && (forall k :: k in f.keys ==> !k.LayersKey? || f.phase.Returned?)
    && f.asked <= |f.keys|
    && (forall k :: k in f.missing ==> k in f.keys)
    && (forall k :: k in f.out ==> k in f.keys)
    && (forall i :: 0 <= i < f.asked && f.keys[i] !in f.out ==> f.keys[i] in f.missing)
    && (f.phase.Reading? || f.phase.Putting? ==> f.asked == |f.keys| > 0)
    && (f.phase.Putting? ==>
          && (forall k :: k in f.phase.left ==> k in f.missing)
          && (forall k :: k in f.missing <==> k in f.phase.got)
          && (forall k :: k in f.missing && k !in f.phase.left ==> k in f.out))
    && (f.phase.Returned? ==> forall k :: k in f.keys ==> k in f.out)
  }

  /** When it began, and which fences it has seen. */
  ghost predicate FrameDates(y: Sys, f: Frame)
    requires y.history != []
  {
    && f.announced <= y.notified && f.announced <= f.begun <= Commits(y) && f.begun <= f.announced + 1
    && (f.asked > 0 ==> f.fence <= y.memo.fence)
    && f.anchor <= y.memo.fence
  }

  /** What it found was answered inside the call, and under the fence of the call it is part of while that stands. */
  ghost predicate FrameAnswers(y: Sys, f: Frame)
    requires y.history != []
  {
    && (forall k :: k in f.out ==> KeptBetween(y.history, f.announced, Commits(y), k, f.out[k]))
    && (f.anchor == y.memo.fence ==>
          forall k :: k in f.out && !k.LayersKey? ==>
                        AnsweredBetween(y.history, y.memo.since, Commits(y), k, f.out[k]))
  }

  /** What it read, it read at one point since its fences were taken. */
  ghost predicate FrameReads(y: Sys, f: Frame)
    requires y.history != []
  {
    f.phase.Putting? ==>
      && f.begun <= f.phase.at <= Commits(y)
      && (f.fence == y.memo.fence ==> y.memo.since <= f.phase.at)
      && (f.anchor == y.memo.fence ==> y.memo.since <= f.phase.at)
      && (forall k :: k in f.phase.got ==> f.phase.got[k] == Answer(y.history[f.phase.at], k))
  }

  ghost predicate FrameInv(y: Sys, f: Frame)
    requires y.history != []
  {
    FrameShape(f) && FrameDates(y, f) && FrameAnswers(y, f) && FrameReads(y, f)
  }

  ghost predicate ThreadInv(y: Sys, t: Thread)
    requires y.history != []
  {
    && FrameInv(y, t.frame)
    && (t.Plain? ==> t.frame.keys != [])
    && (t.Layered? ==>
          && t.key.LayersKey?
          && t.fence <= y.memo.fence
          && t.frame.anchor == t.fence
          && t.frame.keys == Ask(t.key, t.stage, t.parts)
          && (t.fence == y.memo.fence && !t.failed ==>
                PartsBetween(y.history, y.memo.since, Commits(y), t.key, t.parts, t.stage)))
  }

  ghost predicate MemoInv(y: Sys)
    requires y.history != []
  {
    && y.memo.fence <= y.notified
    && y.memo.fence <= y.memo.since <= Commits(y)
    && forall k :: k in y.memo.kept ==> KeptBetween(y.history, y.memo.since, Commits(y), k, y.memo.kept[k])
  }

  /** What every reachable state keeps. */
  ghost predicate Inv(y: Sys) {
    && y.history != []
    && y.notified <= Commits(y) <= y.notified + 1
    && MemoInv(y)
    && forall id :: id in y.threads ==> ThreadInv(y, y.threads[id])
  }

  // ------------------------------------------------------------------ the invariant holds over every run

  ghost predicate Extends(history: seq<Store>, more: seq<Store>) {
    |history| <= |more| && more[..|history|] == history
  }

  lemma AnsweredStays(h: seq<Store>, more: seq<Store>, lo: nat, hi: nat, low: nat, high: nat, k: ReadKey, r: Read)
    requires Extends(h, more) && low <= lo && hi <= high && AnsweredBetween(h, lo, hi, k, r)
    ensures AnsweredBetween(more, low, high, k, r)
  {
    var i :| lo <= i <= hi && i < |h| && Answer(h[i], k) == r;
    assert more[i] == more[..|h|][i] == h[i];
  }

  lemma PartsStay(h: seq<Store>, more: seq<Store>, lo: nat, hi: nat, low: nat, high: nat, k: ReadKey, parts: Parts,
                  stage: Stage)
    requires k.LayersKey? && Extends(h, more) && low <= lo && hi <= high && PartsBetween(h, lo, hi, k, parts, stage)
    ensures PartsBetween(more, low, high, k, parts, stage)
  {
    if stage != AskMember && k.w != NO_ID {
      AnsweredStays(h, more, lo, hi, low, high, MemberKey(k.w, k.u), parts.info);
      if stage != AskOwn && k.p != NO_ID {
        AnsweredStays(h, more, lo, hi, low, high, OwnRuleKey(k.p, k.u), parts.own);
        if stage == Build && RoleIDsOfParts(parts) != [] {
          AnsweredStays(h, more, lo, hi, low, high, RoleRulesKey(k.p, RoleIDsOfParts(parts)), parts.roles);
        }
      }
    }
  }

  lemma KeptStays(h: seq<Store>, more: seq<Store>, lo: nat, hi: nat, low: nat, high: nat, k: ReadKey, r: Read)
    requires Extends(h, more) && low <= lo && hi <= high && KeptBetween(h, lo, hi, k, r)
    ensures KeptBetween(more, low, high, k, r)
  {
    if k.LayersKey? {
      var parts :| PartsBetween(h, lo, hi, k, parts, Build) && r == Found(LayersValue(LayersOf(k, parts)));
      PartsStay(h, more, lo, hi, low, high, k, parts, Build);
    } else {
      AnsweredStays(h, more, lo, hi, low, high, k, r);
    }
  }

  /**
   The rest of the system moved on: more commits or announcements, and a memo that kept its fence or took a newer one.
   */
  ghost predicate MovedOn(y: Sys, z: Sys) {
    && y.history != [] && Extends(y.history, z.history)
    && y.notified <= z.notified
    && ((z.memo.fence == y.memo.fence && z.memo.since == y.memo.since) || z.memo.fence > y.memo.fence)
  }

  lemma FrameStays(y: Sys, z: Sys, f: Frame)
    requires MovedOn(y, z) && FrameInv(y, f)
    ensures z.history != [] && FrameInv(z, f)
  {
    forall k | k in f.out ensures KeptBetween(z.history, f.announced, Commits(z), k, f.out[k]) {
      KeptStays(y.history, z.history, f.announced, Commits(y), f.announced, Commits(z), k, f.out[k]);
    }
    if f.anchor == z.memo.fence {
      forall k | k in f.out && !k.LayersKey? ensures AnsweredBetween(z.history, z.memo.since, Commits(z), k, f.out[k]) {
        AnsweredStays(y.history, z.history, y.memo.since, Commits(y), z.memo.since, Commits(z), k, f.out[k]);
      }
    }
    if f.phase.Putting? {
      assert z.history[..|y.history|][f.phase.at] == y.history[f.phase.at];
    }
  }

  lemma ThreadStays(y: Sys, z: Sys, t: Thread)
    requires MovedOn(y, z) && ThreadInv(y, t)
    ensures z.history != [] && ThreadInv(z, t)
  {
    FrameStays(y, z, t.frame);
    if t.Layered? && t.fence == z.memo.fence && !t.failed {
      PartsStay(y.history, z.history, y.memo.since, Commits(y), z.memo.since, Commits(z), t.key, t.parts, t.stage);
    }
  }

  /** Every thread but one rides along with a step that moved the system on. */
  lemma OthersStay(y: Sys, z: Sys, id: nat)
    requires Inv(y) && MovedOn(y, z)
    requires forall j :: j in z.threads && j != id ==> j in y.threads && z.threads[j] == y.threads[j]
    ensures z.history != [] && forall j :: j in z.threads && j != id ==> ThreadInv(z, z.threads[j])
  {
    forall j | j in z.threads && j != id ensures ThreadInv(z, z.threads[j]) {
      ThreadStays(y, z, y.threads[j]);
    }
  }

  lemma RefreshKeeps(y: Sys)
    requires Inv(y)
    ensures var z := y.(memo := Refreshed(y.memo, y.notified, Commits(y)));
            MovedOn(y, z) && Inv(z) && z.memo.fence == y.notified
  {
    var z := y.(memo := Refreshed(y.memo, y.notified, Commits(y)));
    assert y.history[..|y.history|] == y.history;
    forall id | id in z.threads ensures ThreadInv(z, z.threads[id]) {
      ThreadStays(y, z, z.threads[id]);
    }
  }

  lemma NewFrameInv(y: Sys, keys: seq<ReadKey>, anchor: nat)
    requires Inv(y) && anchor <= y.memo.fence && forall k :: k in keys ==> !k.LayersKey?
    ensures FrameInv(y, NewFrame(y, keys, anchor))
  {
  }

  lemma AskIsPlain(k: ReadKey, stage: Stage, parts: Parts)
    requires k.LayersKey?
    ensures forall q :: q in Ask(k, stage, parts) ==> !q.LayersKey?
  {
  }

  lemma CommitKeeps(y: Sys, s: Store)
    requires Inv(y) && Enabled(y, Commit(s))
    ensures Inv(Apply(y, Commit(s)))
  {
    var z := Apply(y, Commit(s));
    assert z.history[..|y.history|] == y.history;
    OthersStay(y, z, 0);
    if 0 in z.threads { ThreadStays(y, z, y.threads[0]); }
    forall k | k in z.memo.kept ensures KeptBetween(z.history, z.memo.since, Commits(z), k, z.memo.kept[k]) {
      KeptStays(y.history, z.history, y.memo.since, Commits(y), z.memo.since, Commits(z), k, z.memo.kept[k]);
    }
  }

  lemma NotifyKeeps(y: Sys)
    requires Inv(y) && Enabled(y, Notify)
    ensures Inv(Apply(y, Notify))
  {
    var z := Apply(y, Notify);
    assert y.history[..|y.history|] == y.history;
    OthersStay(y, z, 0);
    if 0 in z.threads { ThreadStays(y, z, y.threads[0]); }
  }

  lemma BeginKeeps(y: Sys, id: nat, view: Option<Id>, keys: seq<ReadKey>)
    requires Inv(y) && Enabled(y, Begin(id, view, keys))
    ensures Inv(Apply(y, Begin(id, view, keys)))
  {
    var z := Apply(y, Begin(id, view, keys));
    assert y.history[..|y.history|] == y.history;
    OthersStay(y, z, id);
    NewFrameInv(y, keys, 0);
    FrameStays(y, z, NewFrame(y, keys, 0));
  }

  lemma SameHistory(y: Sys, z: Sys)
    requires y.history != [] && z.history == y.history && z.notified == y.notified
    requires (z.memo.fence == y.memo.fence && z.memo.since == y.memo.since) || z.memo.fence > y.memo.fence
    ensures MovedOn(y, z)
  {
    assert y.history[..|y.history|] == y.history;
  }

  /** A step that changes one thread, its memo as it was. */
  lemma OneThreadMoves(x: Sys, z: Sys, id: nat)
    requires Inv(x) && z == x.(threads := z.threads)
    requires id in z.threads && z.threads == x.threads[id := z.threads[id]] && ThreadInv(x, z.threads[id])
    ensures Inv(z)
  {
    SameHistory(x, z);
    OthersStay(x, z, id);
    ThreadStays(x, z, z.threads[id]);
  }

  /** Layers found kept are answered at once. */
  lemma HitThread(x: Sys, view: Option<Id>, key: ReadKey)
    requires Inv(x) && key in x.memo.kept && x.notified <= x.memo.since
    ensures ThreadInv(x, Plain(view, FoundAtOnce(x, key, x.memo.kept[key])))
  {
    assert x.history[..|x.history|] == x.history;
    KeptStays(x.history, x.history, x.memo.since, Commits(x), x.notified, Commits(x), key, x.memo.kept[key]);
    var f := FoundAtOnce(x, key, x.memo.kept[key]);
    assert f.out.Keys == {key};
    assert FrameInv(x, f);
  }

  lemma BeginLayersKeeps(y: Sys, id: nat, view: Option<Id>, key: ReadKey)
    requires Inv(y) && Enabled(y, BeginLayers(id, view, key))
    ensures Inv(Apply(y, BeginLayers(id, view, key)))
  {
    RefreshKeeps(y);
    var x := y.(memo := Refreshed(y.memo, y.notified, Commits(y)));
    var z := Apply(y, BeginLayers(id, view, key));
    if key in x.memo.kept {
      HitThread(x, view, key);
    } else {
      AskIsPlain(key, AskMember, NO_PARTS);
      NewFrameInv(x, Ask(key, AskMember, NO_PARTS), x.memo.fence);
    }
    OneThreadMoves(x, z, id);
  }

  lemma GetFrame(y: Sys, f: Frame)
    requires Inv(y) && FrameInv(y, f) && f.phase.Getting? && f.asked < |f.keys|
    ensures FrameInv(y.(memo := Refreshed(y.memo, y.notified, Commits(y))), AfterGet(y, f))
  {
    RefreshKeeps(y);
    var x := y.(memo := Refreshed(y.memo, y.notified, Commits(y)));
    FrameStays(y, x, f);
    GetShape(y, f);
    GetAnswers(x, y, f);
  }

  lemma GetShape(y: Sys, f: Frame)
    requires y.history != [] && FrameShape(f) && f.phase.Getting? && f.asked < |f.keys|
    ensures FrameShape(AfterGet(y, f))
  {
    var g, k := AfterGet(y, f), f.keys[f.asked];
    assert k in f.keys;
    assert forall q :: q in f.missing + [k] <==> q in f.missing || q == k;
    assert forall i :: 0 <= i < g.asked && g.keys[i] !in g.out ==> g.keys[i] in g.missing;
    if g.phase.Returned? {
      forall q | q in g.keys ensures q in g.out {
        var i :| 0 <= i < |g.keys| && g.keys[i] == q;
      }
    }
  }

  lemma GetAnswers(x: Sys, y: Sys, f: Frame)
    requires y.history != [] && x == y.(memo := Refreshed(y.memo, y.notified, Commits(y))) && MemoInv(x)
    requires FrameAnswers(x, f) && FrameDates(x, f) && x.memo.fence == y.notified
    requires f.phase.Getting? && f.asked < |f.keys| && !f.keys[f.asked].LayersKey?
    ensures FrameAnswers(x, AfterGet(y, f))
  {
    var k := f.keys[f.asked];
    if k in x.memo.kept {
      assert x.history[..|x.history|] == x.history;
      AnsweredStays(x.history, x.history, x.memo.since, Commits(x), f.announced, Commits(x), k, x.memo.kept[k]);
    }
  }

  lemma GetThread(y: Sys, t: Thread)
    requires Inv(y) && ThreadInv(y, t) && t.frame.phase.Getting? && t.frame.asked < |t.frame.keys|
    ensures ThreadInv(y.(memo := Refreshed(y.memo, y.notified, Commits(y))), WithFrame(t, AfterGet(y, t.frame)))
  {
    RefreshKeeps(y);
    GetFrame(y, t.frame);
    ThreadStays(y, y.(memo := Refreshed(y.memo, y.notified, Commits(y))), t);
  }

  lemma GetKeeps(y: Sys, id: nat)
    requires Inv(y) && Enabled(y, Get(id))
    ensures Inv(Apply(y, Get(id)))
  {
    RefreshKeeps(y);
    var x := y.(memo := Refreshed(y.memo, y.notified, Commits(y)));
    var z := Apply(y, Get(id));
    GetThread(y, y.threads[id]);
    OneThreadMoves(x, z, id);
  }

  lemma FetchThread(y: Sys, t: Thread, fails: bool)
    requires Inv(y) && ThreadInv(y, t) && t.frame.phase.Reading?
    ensures ThreadInv(y, WithFrame(t, AfterFetch(y, t.frame, fails)))
  {
    assert FrameInv(y, AfterFetch(y, t.frame, fails));
  }

  lemma FetchKeeps(y: Sys, id: nat, fails: bool)
    requires Inv(y) && Enabled(y, Fetch(id, fails))
    ensures Inv(Apply(y, Fetch(id, fails)))
  {
    var z := Apply(y, Fetch(id, fails));
    FetchThread(y, y.threads[id], fails);
    OneThreadMoves(y, z, id);
  }

  lemma PutFrame(y: Sys, f: Frame)
    requires y.history != [] && FrameInv(y, f) && f.phase.Putting?
    ensures FrameInv(y, AfterPut(f))
  {
    if f.phase.left == [] {
      AllPut(f);
    } else {
      PutOne(y, f);
    }
  }

  lemma PutOne(y: Sys, f: Frame)
    requires y.history != [] && FrameInv(y, f) && f.phase.Putting? && f.phase.left != []
    ensures FrameInv(y, AfterPut(f))
  {
    PutShape(f);
    PuttingIsAnswered(y, f);
    PutAnswers(y, f);
  }

  lemma PutShape(f: Frame)
    requires FrameShape(f) && f.phase.Putting? && f.phase.left != []
    ensures FrameShape(AfterPut(f))
  {
    var k := f.phase.left[0];
    assert forall q :: q in f.phase.left <==> q == k || q in f.phase.left[1..];
  }

  lemma PutAnswers(y: Sys, f: Frame)
    requires y.history != [] && FrameAnswers(y, f) && f.phase.Putting? && f.phase.left != []
    requires var k := f.phase.left[0];
             && k in f.phase.got && !k.LayersKey?
             && AnsweredBetween(y.history, f.announced, Commits(y), k, f.phase.got[k])
             && (f.anchor == y.memo.fence ==> AnsweredBetween(y.history, y.memo.since, Commits(y), k, f.phase.got[k]))
    ensures FrameAnswers(y, AfterPut(f))
  {
  }

  lemma AllPut(f: Frame)
    requires f.asked == |f.keys| && forall i :: 0 <= i < f.asked && f.keys[i] !in f.out ==> f.keys[i] in f.missing
    requires forall k :: k in f.missing ==> k in f.out
    ensures forall q :: q in f.keys ==> q in f.out
  {
    forall q | q in f.keys ensures q in f.out {
      var i :| 0 <= i < |f.keys| && f.keys[i] == q;
    }
  }

  /** The answer about to be put was the store's inside the call, and under the call's fence while that stands. */
  lemma PuttingIsAnswered(y: Sys, f: Frame)
    requires y.history != [] && FrameInv(y, f) && f.phase.Putting? && f.phase.left != []
    ensures var k := f.phase.left[0];
            && k in f.phase.got && k in f.keys && !k.LayersKey?
            && AnsweredBetween(y.history, f.announced, Commits(y), k, f.phase.got[k])
            && (f.anchor == y.memo.fence ==> AnsweredBetween(y.history, y.memo.since, Commits(y), k, f.phase.got[k]))
            && (f.fence == y.memo.fence ==> AnsweredBetween(y.history, y.memo.since, Commits(y), k, f.phase.got[k]))
  {
    var k := f.phase.left[0];
    assert k in f.phase.left && k in f.missing;
    assert Answer(y.history[f.phase.at], k) == f.phase.got[k];
  }

  lemma KeptMemo(y: Sys, fence: nat, k: ReadKey, r: Read)
    requires y.history != [] && MemoInv(y) && !k.LayersKey?
    requires fence == y.memo.fence ==> AnsweredBetween(y.history, y.memo.since, Commits(y), k, r)
    ensures MemoInv(y.(memo := Kept(y.memo, fence, k, r)))
  {
  }

  lemma PutMemo(y: Sys, z: Sys, f: Frame)
    requires y.history != [] && MemoInv(y) && f.phase.Putting?
    requires f.phase.left != [] ==>
               var k := f.phase.left[0];
               && k in f.phase.got && !k.LayersKey?
               && (f.fence == y.memo.fence ==> AnsweredBetween(y.history, y.memo.since, Commits(y), k, f.phase.got[k]))
    requires z == y.(memo := MemoAfterPut(y.memo, f), threads := z.threads)
    ensures MemoInv(z) && MovedOn(y, z)
  {
    assert y.history[..|y.history|] == y.history;
    if f.phase.left != [] {
      KeptMemo(y, f.fence, f.phase.left[0], f.phase.got[f.phase.left[0]]);
    }
  }

  lemma PutThread(y: Sys, t: Thread)
    requires Inv(y) && ThreadInv(y, t) && t.frame.phase.Putting?
    ensures ThreadInv(y, WithFrame(t, AfterPut(t.frame)))
  {
    PutFrame(y, t.frame);
  }

  lemma PutKeeps(y: Sys, id: nat)
    requires Inv(y) && Enabled(y, Put(id))
    ensures Inv(Apply(y, Put(id)))
  {
    var z := Apply(y, Put(id));
    var t := y.threads[id];
    if t.frame.phase.left != [] { PuttingIsAnswered(y, t.frame); }
    PutMemo(y, z, t.frame);
    OthersStay(y, z, id);
    PutThread(y, t);
    ThreadStays(y, z, WithFrame(t, AfterPut(t.frame)));
  }

  lemma AdvanceParts(y: Sys, t: Thread)
    requires Inv(y) && ThreadInv(y, t) && t.Layered? && t.stage != Build &&
             (t.frame.phase.Returned? || t.frame.phase.Broken?)
    requires t.fence == y.memo.fence && !AfterAdvance(y, t).failed
    ensures var u := AfterAdvance(y, t); PartsBetween(y.history, y.memo.since, Commits(y), u.key, u.parts, u.stage)
  {
    var asked := Ask(t.key, t.stage, t.parts);
    if asked != [] {
      assert asked[0] in t.frame.keys && !asked[0].LayersKey?;
      assert asked[0] in t.frame.out;
      assert AnsweredBetween(y.history, y.memo.since, Commits(y), asked[0], t.frame.out[asked[0]]);
    }
  }

  lemma AdvanceThread(y: Sys, t: Thread)
    requires Inv(y) && ThreadInv(y, t) && t.Layered? && t.stage != Build &&
             (t.frame.phase.Returned? || t.frame.phase.Broken?)
    ensures ThreadInv(y, AfterAdvance(y, t))
  {
    var u := AfterAdvance(y, t);
    AskIsPlain(u.key, u.stage, u.parts);
    NewFrameInv(y, Ask(u.key, u.stage, u.parts), u.fence);
    if u.fence == y.memo.fence && !u.failed {
      AdvanceParts(y, t);
    }
  }

  lemma AdvanceKeeps(y: Sys, id: nat)
    requires Inv(y) && Enabled(y, Advance(id))
    ensures Inv(Apply(y, Advance(id)))
  {
    var z := Apply(y, Advance(id));
    AdvanceThread(y, y.threads[id]);
    OneThreadMoves(y, z, id);
  }

  lemma FinishMemo(y: Sys, z: Sys, t: Thread)
    requires y.history != [] && MemoInv(y) && t.Layered? && t.key.LayersKey?
    requires !t.failed && t.fence == y.memo.fence ==>
               PartsBetween(y.history, y.memo.since, Commits(y), t.key, t.parts, Build)
    requires var r := if t.failed then Failed else Found(LayersValue(LayersOf(t.key, t.parts)));
             z == y.(memo := Kept(y.memo, t.fence, t.key, r), threads := z.threads)
    ensures MemoInv(z) && z.memo.fence == y.memo.fence && z.memo.since == y.memo.since
  {
  }

  lemma FinishKeeps(y: Sys, id: nat)
    requires Inv(y) && Enabled(y, Finish(id))
    ensures Inv(Apply(y, Finish(id)))
  {
    var z := Apply(y, Finish(id));
    FinishMemo(y, z, y.threads[id]);
    OneThreadEnds(y, z, id);
  }

  lemma OneThreadEnds(y: Sys, z: Sys, id: nat)
    requires Inv(y) && z.history == y.history && z.notified == y.notified && z.threads == y.threads - {id} && MemoInv(z)
    requires z.memo.fence == y.memo.fence && z.memo.since == y.memo.since
    ensures Inv(z)
  {
    SameHistory(y, z);
    OthersStay(y, z, id);
  }

  lemma StepKeepsInv(y: Sys, step: Step)
    requires Inv(y) && Enabled(y, step)
    ensures Inv(Apply(y, step))
  {
    match step
    case Commit(s) => CommitKeeps(y, s);
    case Notify => NotifyKeeps(y);
    case Begin(id, view, keys) => BeginKeeps(y, id, view, keys);
    case BeginLayers(id, view, key) => BeginLayersKeeps(y, id, view, key);
    case Get(id) => GetKeeps(y, id);
    case Fetch(id, fails) => FetchKeeps(y, id, fails);
    case Put(id) => PutKeeps(y, id);
    case Advance(id) => AdvanceKeeps(y, id);
    case Finish(id) => FinishKeeps(y, id);
  }

  // ------------------------------------------------------------------ the theorems

  /** A run: states from an empty memo, each step enabled where it is taken. */
  ghost predicate Run(states: seq<Sys>, steps: seq<Step>) {
    && |states| == |steps| + 1
    && Init(states[0])
    && forall i {:trigger steps[i]} :: 0 <= i < |steps| ==>
                                         Enabled(states[i], steps[i]) && states[i + 1] == Apply(states[i], steps[i])
  }

  lemma {:induction false} RunKeepsInv(states: seq<Sys>, steps: seq<Step>, n: nat)
    requires Run(states, steps) && n < |states|
    ensures Inv(states[n])
  {
    if n > 0 {
      RunKeepsInv(states, steps, n - 1);
      StepKeepsInv(states[n - 1], steps[n - 1]);
    }
  }

  /** What a get of a key would return now. */
  function Hit(y: Sys, k: ReadKey): Option<Read>
    requires y.history != []
  {
    Find(Refreshed(y.memo, y.notified, Commits(y)).kept, k)
  }

  /** Parts all read from one store build that store's layers. */
  lemma PartsOfOneStore(h: seq<Store>, n: nat, k: ReadKey, parts: Parts)
    requires k.LayersKey? && n < |h| && PartsBetween(h, n, n, k, parts, Build)
    ensures LayersOf(k, parts) == ReadLayers(h[n], k.u, k.w, k.p)
  {
    if k.w != NO_ID {
      var s := h[n];
      assert parts.info == Answer(s, MemberKey(k.w, k.u));
      assert InfoOf(parts.info) == Find(s.members, (k.w, k.u));
      if k.p != NO_ID {
        assert parts.own == Answer(s, OwnRuleKey(k.p, k.u));
        var ids := RoleIDsOfParts(parts);
        if ids == [] {
          AmongNone(s.roleOrder);
        } else {
          assert parts.roles == Answer(s, RoleRulesKey(k.p, ids));
        }
        assert RulesOfParts(parts) == ProjectRules(s, k.u, ids, k.p);
      }
    }
  }

  lemma {:induction false} AmongNone(order: seq<Id>)
    ensures Among(order, []) == []
  {
    if order != [] { AmongNone(order[1..]); }
  }

  lemma KeptFromOneStore(h: seq<Store>, n: nat, k: ReadKey, r: Read)
    requires n < |h| && KeptBetween(h, n, n, k, r)
    ensures r == Answer(h[n], k)
  {
    if k.LayersKey? {
      var parts :| PartsBetween(h, n, n, k, parts, Build) && r == Found(LayersValue(LayersOf(k, parts)));
      PartsOfOneStore(h, n, k, parts);
    }
  }

  /**
   Memo coherence: over every interleaving, whenever every commit so far has been announced, any hit, layers included,
   is what the store answers at that instant; layers whose inner reads straddled a commit have been thrown away or
   cleared by then.
   */
  lemma HitsAreExact(states: seq<Sys>, steps: seq<Step>, n: nat, k: ReadKey)
    requires Run(states, steps) && n < |states|
    requires states[n].history != [] && Commits(states[n]) == states[n].notified
    ensures Hit(states[n], k).Some? ==> Hit(states[n], k).value == Answer(Current(states[n]), k)
  {
    RunKeepsInv(states, steps, n);
    HitIsExact(states[n], k);
  }

  lemma EntryOfNow(y: Sys, k: ReadKey)
    requires y.history != [] && MemoInv(y) && Commits(y) == y.notified && Hit(y, k).Some?
    ensures KeptBetween(y.history, Commits(y), Commits(y), k, Hit(y, k).value)
  {
    assert y.memo.fence == y.notified && y.memo.since == Commits(y);
  }

  lemma HitIsExact(y: Sys, k: ReadKey)
    requires y.history != [] && MemoInv(y) && Commits(y) == y.notified
    ensures Hit(y, k).Some? ==> Hit(y, k).value == Answer(Current(y), k)
  {
    if Hit(y, k).Some? {
      EntryOfNow(y, k);
      KeptFromOneStore(y.history, Commits(y), k, Hit(y, k).value);
    }
  }

  /**
   While one commit awaits its announcement a hit of a single read is the store's answer just before it or just after.
   */
  lemma HitsLagOneCommitAtMost(states: seq<Sys>, steps: seq<Step>, n: nat, k: ReadKey)
    requires Run(states, steps) && n < |states| && !k.LayersKey?
    requires states[n].history != [] && Commits(states[n]) > states[n].notified
    ensures var y := states[n];
            Hit(y, k).Some? ==>
              |y.history| >= 2 &&
              (Hit(y, k).value == Answer(Current(y), k) || Hit(y, k).value == Answer(y.history[|y.history| - 2], k))
  {
    if Hit(states[n], k).Some? {
      HitLags(states, steps, n, k);
      var y := states[n];
      AnsweredByOneOfTwo(y.history, y.memo.since, Commits(y), k, Hit(y, k).value);
    }
  }

  /**
   Layers kept in that gap are worse off: each of their parts is the answer of one of the two stores, but not all need
   be of the same one.
   */
  lemma LayersHitsMixTwoStoresAtMost(states: seq<Sys>, steps: seq<Step>, n: nat, k: ReadKey)
    requires Run(states, steps) && n < |states| && k.LayersKey?
    requires states[n].history != [] && Commits(states[n]) > states[n].notified
    ensures var y := states[n];
            Hit(y, k).Some? ==>
              exists parts :: && PartsBetween(y.history, y.notified, Commits(y), k, parts, Build)
                              && Hit(y, k).value == Found(LayersValue(LayersOf(k, parts)))
    ensures states[n].notified == Commits(states[n]) - 1
  {
    RunKeepsInv(states, steps, n);
    if Hit(states[n], k).Some? {
      var parts := PartsOfAHit(states[n], k);
    }
  }

  /** The parts a layers hit was built from: each answered since the last announcement. */
  lemma PartsOfAHit(y: Sys, k: ReadKey) returns (parts: Parts)
    requires y.history != [] && MemoInv(y) && k.LayersKey? && Hit(y, k).Some?
    ensures PartsBetween(y.history, y.notified, Commits(y), k, parts, Build)
    ensures Hit(y, k).value == Found(LayersValue(LayersOf(k, parts)))
  {
    var h, m := y.history, y.memo;
    assert m.fence == y.notified && k in m.kept;
    parts :| PartsBetween(h, m.since, Commits(y), k, parts, Build) &&
             m.kept[k] == Found(LayersValue(LayersOf(k, parts)));
    assert h[..|h|] == h;
    PartsStay(h, h, m.since, Commits(y), y.notified, Commits(y), k, parts, Build);
  }

  /** A hit of layers in the gap is exact when the commit in it left each of the reads they are built from alone. */
  lemma UntouchedLayersAreExact(states: seq<Sys>, steps: seq<Step>, n: nat, k: ReadKey)
    requires Run(states, steps) && n < |states| && k.LayersKey?
    requires states[n].history != [] && Commits(states[n]) > states[n].notified
    requires var h, c := states[n].history, Commits(states[n]); SameLayerReads(h[c - 1], h[c], k)
    ensures Hit(states[n], k).Some? ==> Hit(states[n], k).value == Answer(states[n].history[Commits(states[n])], k)
  {
    if Hit(states[n], k).Some? {
      var parts := PartsInTheGap(states, steps, n, k);
      AlikeStoresAnswer(states[n].history, Commits(states[n]), k, parts, Hit(states[n], k).value);
    }
  }

  lemma PartsInTheGap(states: seq<Sys>, steps: seq<Step>, n: nat, k: ReadKey) returns (parts: Parts)
    requires Run(states, steps) && n < |states| && k.LayersKey?
    requires states[n].history != [] && Commits(states[n]) > states[n].notified && Hit(states[n], k).Some?
    ensures Commits(states[n]) > 0
    ensures PartsBetween(states[n].history, Commits(states[n]) - 1, Commits(states[n]), k, parts, Build)
    ensures Hit(states[n], k).value == Found(LayersValue(LayersOf(k, parts)))
  {
    RunKeepsInv(states, steps, n);
    parts := PartsOfAHit(states[n], k);
  }

  lemma AlikeStoresAnswer(h: seq<Store>, c: nat, k: ReadKey, parts: Parts, hit: Read)
    requires k.LayersKey? && 0 < c < |h| && SameLayerReads(h[c - 1], h[c], k)
    requires PartsBetween(h, c - 1, c, k, parts, Build) && hit == Found(LayersValue(LayersOf(k, parts)))
    ensures hit == Answer(h[c], k)
  {
    AlikeStoresBuildOne(h, c, k, parts);
  }

  lemma AlikeStoresBuildOne(h: seq<Store>, c: nat, k: ReadKey, parts: Parts)
    requires k.LayersKey? && 0 < c < |h| && SameLayerReads(h[c - 1], h[c], k)
    requires PartsBetween(h, c - 1, c, k, parts, Build)
    ensures LayersOf(k, parts) == ReadLayers(h[c], k.u, k.w, k.p)
  {
    PartsOfSameReads(h, c, k, parts);
    PartsOfOneStore(h, c, k, parts);
  }

  /** Two stores agree on what a person's layers are built from: membership, own rule, and the rules for their roles. */
  ghost predicate SameLayerReads(s: Store, t: Store, k: ReadKey)
    requires k.LayersKey?
  {
    var on := Resource(ProjectKind, k.p);
    var ids := InfoRoleIDs(Find(s.members, (k.w, k.u)));
    && Find(s.members, (k.w, k.u)) == Find(t.members, (k.w, k.u))
    && RuleAt(s, Key(on, Person(k.u))) == RuleAt(t, Key(on, Person(k.u)))
    && RoleRules(s, on, ids) == RoleRules(t, on, ids)
  }

  lemma SameLayers(s: Store, t: Store, k: ReadKey)
    requires k.LayersKey? && SameLayerReads(s, t, k)
    ensures Answer(s, MemberKey(k.w, k.u)) == Answer(t, MemberKey(k.w, k.u))
    ensures Answer(s, OwnRuleKey(k.p, k.u)) == Answer(t, OwnRuleKey(k.p, k.u))
    ensures var ids := InfoRoleIDs(Find(s.members, (k.w, k.u)));
            Answer(s, RoleRulesKey(k.p, ids)) == Answer(t, RoleRulesKey(k.p, ids))
  {
  }

  lemma MembershipAnswers(h: seq<Store>, c: nat, k: ReadKey, r: Read)
    requires k.LayersKey? && 0 < c < |h| && AnsweredBetween(h, c, c, MemberKey(k.w, k.u), r)
    requires Answer(h[c - 1], MemberKey(k.w, k.u)) == Answer(h[c], MemberKey(k.w, k.u))
    ensures InfoOf(r) == Find(h[c - 1].members, (k.w, k.u))
  {
    assert r == Answer(h[c - 1], MemberKey(k.w, k.u));
  }

  lemma LatestAnswers(h: seq<Store>, c: nat, k: ReadKey, r: Read)
    requires 0 < c < |h| && AnsweredBetween(h, c - 1, c, k, r) && Answer(h[c - 1], k) == Answer(h[c], k)
    ensures AnsweredBetween(h, c, c, k, r)
  {
    AnsweredByOneOfTwo(h, c - 1, c, k, r);
  }

  lemma PartsOfSameReads(h: seq<Store>, c: nat, k: ReadKey, parts: Parts)
    requires k.LayersKey? && 0 < c < |h| && SameLayerReads(h[c - 1], h[c], k) &&
             PartsBetween(h, c - 1, c, k, parts, Build)
    ensures PartsBetween(h, c, c, k, parts, Build)
  {
    if k.w != NO_ID {
      SameLayers(h[c - 1], h[c], k);
      LatestAnswers(h, c, MemberKey(k.w, k.u), parts.info);
      MembershipAnswers(h, c, k, parts.info);
      if k.p != NO_ID {
        LatestAnswers(h, c, OwnRuleKey(k.p, k.u), parts.own);
        var ids := RoleIDsOfParts(parts);
        if ids != [] { LatestAnswers(h, c, RoleRulesKey(k.p, ids), parts.roles); }
      }
    }
  }

  lemma AnsweredByOneOfTwo(h: seq<Store>, lo: nat, hi: nat, k: ReadKey, r: Read)
    requires 0 < hi < |h| && hi - 1 <= lo && AnsweredBetween(h, lo, hi, k, r)
    ensures r == Answer(h[hi], k) || r == Answer(h[hi - 1], k)
  {
    var i :| lo <= i <= hi && i < |h| && Answer(h[i], k) == r;
    assert i == hi || i == hi - 1;
  }

  lemma HitIsAnEntry(y: Sys, k: ReadKey)
    requires y.history != [] && MemoInv(y) && Hit(y, k).Some? && !k.LayersKey?
    ensures y.notified <= y.memo.since
    ensures AnsweredBetween(y.history, y.memo.since, Commits(y), k, Hit(y, k).value)
  {
  }

  lemma HitLags(states: seq<Sys>, steps: seq<Step>, n: nat, k: ReadKey)
    requires Run(states, steps) && n < |states| && !k.LayersKey?
    requires states[n].history != [] && Commits(states[n]) > states[n].notified && Hit(states[n], k).Some?
    ensures var y := states[n];
            && y.notified == Commits(y) - 1 && y.notified <= y.memo.since
            && AnsweredBetween(y.history, y.memo.since, Commits(y), k, Hit(y, k).value)
  {
    RunKeepsInv(states, steps, n);
    HitIsAnEntry(states[n], k);
  }

  /**
   Every answer a finished call gives was the store's answer at some instant inside the call, even when its keys span
   two fences, provided every commit had been announced when it began; otherwise it may be one commit older.
   */
  lemma AnswersComeFromInsideTheCall(states: seq<Sys>, steps: seq<Step>, n: nat, id: nat, k: ReadKey)
    requires Run(states, steps) && n < |states| && id in states[n].threads && states[n].history != []
    requires var t := states[n].threads[id]; t.Plain? && t.frame.phase.Returned? && k in t.frame.keys && !k.LayersKey?
    ensures var f := states[n].threads[id].frame;
            && k in f.out
            && AnsweredBetween(states[n].history, f.announced, Commits(states[n]), k, f.out[k])
            && f.begun - 1 <= f.announced <= f.begun
  {
    RunKeepsInv(states, steps, n);
    assert ThreadInv(states[n], states[n].threads[id]);
  }
}
