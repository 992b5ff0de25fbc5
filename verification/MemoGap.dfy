/**
 The gap between a commit and its announcement: runs in which the memo answers with what is no longer, or never was, so.
 */
module MemoGap {
  import opened Options
  import opened AccessModel
  import opened Evaluator
  import opened AccessStore
  import opened Memo

  /**
   The step order that goes wrong: an entry kept, a commit visible and not yet announced, and a hit on the old answer.
   */
  lemma AHitCanBeStaleBeforeTheAnnouncement(before: Store, after: Store, k: ReadKey)
    returns (states: seq<Sys>, steps: seq<Step>)
    requires !k.LayersKey? && Answer(before, k) != Answer(after, k)
    ensures Run(states, steps) && |states| == 6 && states[5].history != []
    ensures Hit(states[5], k) == Some(Answer(before, k)) && Current(states[5]) == after
  {
    var m0 := MemoState(0, 0, map[]);
    var m1 := MemoState(0, 0, map[k := Answer(before, k)]);
    var f0 := Frame([k], 0, [], map[], Getting, 0, 0, 0, 0);
    var f1 := f0.(missing := [k], phase := Reading, asked := 1);
    var f2 := f1.(phase := Putting(map[k := Answer(before, k)], 0, [k]));
    var f3 := f1.(out := map[k := Answer(before, k)], phase := Putting(map[k := Answer(before, k)], 0, []));
    var y0 := Sys([before], 0, m0, map[]);
    var y1 := Sys([before], 0, m0, map[0 := Plain(None, f0)]);
    var y2 := Sys([before], 0, m0, map[0 := Plain(None, f1)]);
    var y3 := Sys([before], 0, m0, map[0 := Plain(None, f2)]);
    var y4 := Sys([before], 0, m1, map[0 := Plain(None, f3)]);
    var y5 := Sys([before, after], 0, m1, map[0 := Plain(None, f3)]);
    StaleStart(before, k, f0, f1, f2);
    StaleEnd(before, after, k, f2, f3);
    states, steps := [y0], [];
    states, steps := Extended(states, steps, Begin(0, None, [k]), y1);
    states, steps := Extended(states, steps, Get(0), y2);
    states, steps := Extended(states, steps, Fetch(0, false), y3);
    states, steps := Extended(states, steps, Put(0), y4);
    states, steps := Extended(states, steps, Commit(after), y5);
  }

  /** One more step of a run, to the state it is expected to reach. */
  lemma Extended(states: seq<Sys>, steps: seq<Step>, step: Step, reached: Sys)
    returns (more: seq<Sys>, longer: seq<Step>)
    requires Run(states, steps) && Enabled(states[|steps|], step) && Apply(states[|steps|], step) == reached
    ensures Run(more, longer) && |longer| == |steps| + 1 && more[|longer|] == reached
  {
    more, longer := states + [reached], steps + [step];
  }

  lemma StaleStart(before: Store, k: ReadKey, f0: Frame, f1: Frame, f2: Frame)
    requires !k.LayersKey? && f0 == Frame([k], 0, [], map[], Getting, 0, 0, 0, 0)
    requires f1 == f0.(missing := [k], phase := Reading, asked := 1)
    requires f2 == f1.(phase := Putting(map[k := Answer(before, k)], 0, [k]))
    ensures var m := MemoState(0, 0, map[]);
            var y0, y1 := Sys([before], 0, m, map[]), Sys([before], 0, m, map[0 := Plain(None, f0)]);
            var y2 := Sys([before], 0, m, map[0 := Plain(None, f1)]);
            && Enabled(y0, Begin(0, None, [k])) && Apply(y0, Begin(0, None, [k])) == y1
            && Enabled(y1, Get(0)) && Apply(y1, Get(0)) == y2
            && Enabled(y2, Fetch(0, false)) &&
               Apply(y2, Fetch(0, false)) == Sys([before], 0, m, map[0 := Plain(None, f2)])
  {
    var y1 := Sys([before], 0, MemoState(0, 0, map[]), map[0 := Plain(None, f0)]);
    assert AfterGet(y1, f0) == f1 by { assert [] + [k] == [k]; }
    FetchesOne(y1.(threads := map[0 := Plain(None, f1)]), f1, k);
  }

  lemma StaleEnd(before: Store, after: Store, k: ReadKey, f2: Frame, f3: Frame)
    requires f2 == Frame([k], 0, [k], map[], Putting(map[k := Answer(before, k)], 0, [k]), 0, 0, 0, 1)
    requires f3 == f2.(out := map[k := Answer(before, k)], phase := Putting(map[k := Answer(before, k)], 0, []))
    ensures var m := MemoState(0, 0, map[k := Answer(before, k)]);
            var y3, y4 := Sys([before], 0, MemoState(0, 0, map[]), map[0 := Plain(None, f2)]),
                          Sys([before], 0, m, map[0 := Plain(None, f3)]);
            && Enabled(y3, Put(0)) && Apply(y3, Put(0)) == y4
            && Enabled(y4, Commit(after)) &&
               Apply(y4, Commit(after)) == Sys([before, after], 0, m, map[0 := Plain(None, f3)])
  {
    NeverFails(before, k);
    assert [k][1..] == [];
    assert AfterPut(f2) == f3;
    assert [before] + [after] == [before, after];
  }

  lemma NeverFails(s: Store, k: ReadKey)
    ensures Answer(s, k) != Failed
  {
  }

  // ------------------------------------------------------------------ layers of two stores

  /** Layers being built are about to read a part that is not kept, no commit having been announced. */
  ghost predicate AboutToRead(y: Sys, t: Thread, k: ReadKey) {
    && y.history != [] && y.notified == 0 && y.memo.fence == 0 && y.threads == map[0 := t] && k !in y.memo.kept
    && t.Layered? && t.key.LayersKey? && t.stage != Build && Ask(t.key, t.stage, t.parts) == [k]
    && t.frame.keys == [k] && t.frame.fence == 0 && t.frame.missing == [] && t.frame.out == map[] &&
       t.frame.phase == Getting
    && t.frame.asked == 0
  }

  lemma FetchesAPart(states: seq<Sys>, steps: seq<Step>, t: Thread, k: ReadKey, f2: Frame)
    returns (more: seq<Sys>, longer: seq<Step>)
    requires Run(states, steps) && AboutToRead(states[|steps|], t, k)
    requires var y := states[|steps|];
             f2 == t.frame.(missing := [k], asked := 1, phase :=
             Putting(map[k := Answer(Current(y), k)], Commits(y), [k]))
    ensures Run(more, longer) && more[|longer|] == states[|steps|].(threads := map[0 := WithFrame(t, f2)])
  {
    var y := states[|steps|];
    var f1 := t.frame.(missing := [k], asked := 1, phase := Reading);
    assert AfterGet(y, t.frame) == f1 by { assert [] + [k] == [k]; }
    more, longer := Extended(states, steps, Get(0), y.(threads := map[0 := WithFrame(t, f1)]));
    FetchesOne(y.(threads := map[0 := WithFrame(t, f1)]), f1, k);
    more, longer := Extended(more, longer, Fetch(0, false), y.(threads := map[0 := WithFrame(t, f2)]));
  }

  lemma KeepsAPart(states: seq<Sys>, steps: seq<Step>, t: Thread, k: ReadKey, a: Read, at: nat)
    returns (more: seq<Sys>, longer: seq<Step>)
    requires Run(states, steps) && a != Failed
    requires var y := states[|steps|];
             && y.history != [] && y.memo.fence == 0 && y.threads == map[0 := t]
             && t.frame.fence == 0 && t.frame.out == map[] && t.frame.phase == Putting(map[k := a], at, [k])
    ensures var y := states[|steps|];
            && Run(more, longer)
            && more[|longer|] == y.(memo := y.memo.(kept := y.memo.kept[k := a]),
                                 threads := map[0 := WithFrame(t, t.frame.(out := map[k := a], phase := Returned))])
  {
    var y := states[|steps|];
    PutsOne(y.memo, t.frame, k, a, at);
    var f3 := t.frame.(out := map[k := a], phase := Putting(map[k := a], at, []));
    var kept := y.(memo := y.memo.(kept := y.memo.kept[k := a]));
    more, longer := Extended(states, steps, Put(0), kept.(threads := map[0 := WithFrame(t, f3)]));
    more, longer := Extended(more, longer, Put(0), kept.(threads := map[0 := WithFrame(t, f3.(phase := Returned))]));
  }

  /** The part is read and kept, and handed on. */
  lemma ReadsAPart(states: seq<Sys>, steps: seq<Step>, t: Thread, k: ReadKey)
    returns (more: seq<Sys>, longer: seq<Step>)
    requires Run(states, steps) && AboutToRead(states[|steps|], t, k)
    ensures Run(more, longer)
    ensures var y := states[|steps|];
            var a := Answer(Current(y), k);
            more[|longer|] ==
            y.(memo := y.memo.(kept := y.memo.kept[k := a]),
            threads := map[0 := AfterAdvance(y, WithFrame(t, Answered(t.frame, k, a)))])
  {
    var y := states[|steps|];
    var a := Answer(Current(y), k);
    var f2 := t.frame.(missing := [k], asked := 1, phase := Putting(map[k := a], Commits(y), [k]));
    more, longer := FetchesAPart(states, steps, t, k, f2);
    NeverFails(Current(y), k);
    more, longer := KeepsAPart(more, longer, WithFrame(t, f2), k, a, Commits(y));
    var z := more[|longer|];
    more, longer := Extended(more, longer, Advance(0), z.(threads := map[0 := AfterAdvance(y, z.threads[0])]));
  }

  function Answered(f: Frame, k: ReadKey, a: Read): Frame {
    f.(missing := [k], asked := 1, out := map[k := a], phase := Returned)
  }

  lemma FetchesOne(y: Sys, f: Frame, k: ReadKey)
    requires y.history != [] && f.missing == [k]
    ensures AfterFetch(y, f, false) == f.(phase := Putting(map[k := Answer(Current(y), k)], Commits(y), [k]))
  {
    assert (map q | q in f.missing :: Answer(Current(y), q)) == map[k := Answer(Current(y), k)];
  }

  lemma PutsOne(m: MemoState, f: Frame, k: ReadKey, a: Read, at: nat)
    requires f.phase == Putting(map[k := a], at, [k]) && f.out == map[] && f.fence == m.fence && a != Failed
    ensures AfterPut(f) == f.(out := map[k := a], phase := Putting(map[k := a], at, []))
    ensures MemoAfterPut(m, f) == m.(kept := m.kept[k := a])
  {
    assert [k][1..] == [];
  }

  /** A membership of one store beside a rule of the next one. */
  function Mixed(key: ReadKey, info: RoleInfo, rule: Rule): Layers
    requires key.LayersKey?
  {
    BuildLayers(key.u, key.w, key.p, Some(info), Some(Rules(Some(rule), [])))
  }

  /**
   Layers of two stores. The membership is read from one store and the person's own rule on the project from the next,
   whose commit is not announced yet; the layers built of both are kept, and hit.
   */
  lemma AHitCanMixTwoStores(before: Store, after: Store, key: ReadKey, info: RoleInfo, rule: Rule)
    returns (states: seq<Sys>, steps: seq<Step>)
    requires key.LayersKey? && key.w != NO_ID && key.p != NO_ID && RoleIDs(info) == []
    requires Answer(before, MemberKey(key.w, key.u)) == Found(InfoValue(info))
    requires Answer(after, OwnRuleKey(key.p, key.u)) == Found(RuleValue(rule))
    ensures Run(states, steps) && states[|steps|].history == [before, after]
    ensures Hit(states[|steps|], key) == Some(Found(LayersValue(Mixed(key, info, rule))))
  {
    var parts1 := NO_PARTS.(info := Found(InfoValue(info)));
    var t1;
    states, steps, t1 := MembershipIsRead(before, key, parts1);
    var own := OwnRuleKey(key.p, key.u);
    var y2 := states[|steps|].(history := [before, after]);
    assert [before] + [after] == [before, after];
    states, steps := Extended(states, steps, Commit(after), y2);
    states, steps := ReadsAPart(states, steps, t1, own);
    var parts2 := parts1.(own := Found(RuleValue(rule)));
    var t2 := Layered(key, 0, AskRoles, parts2, false, NewFrame(y2, [], 0));
    assert states[|steps|].threads == map[0 := t2];
    states, steps := MixedLayersAreKept(states, steps, key, parts2, t2);
    assert LayersOf(key, parts2) == Mixed(key, info, rule);
  }

  /** The membership is read from the first store, and the person's own rule is asked for next. */
  lemma MembershipIsRead(before: Store, key: ReadKey, parts: Parts)
    returns (states: seq<Sys>, steps: seq<Step>, t: Thread)
    requires key.LayersKey? && key.w != NO_ID && key.p != NO_ID
    requires parts == NO_PARTS.(info := Answer(before, MemberKey(key.w, key.u)))
    ensures Run(states, steps)
    ensures var y := states[|steps|];
            && y.history == [before] && y.notified == 0 && y.threads == map[0 := t]
            && y.memo == MemoState(0, 0, map[MemberKey(key.w, key.u) := parts.info])
            && t == Layered(key, 0, AskOwn, parts, false, NewFrame(y, [OwnRuleKey(key.p, key.u)], 0))
  {
    var y0 := Sys([before], 0, MemoState(0, 0, map[]), map[]);
    var member := MemberKey(key.w, key.u);
    var t0 := Layered(key, 0, AskMember, NO_PARTS, false, NewFrame(y0, [member], 0));
    states, steps := [y0], [];
    states, steps := Extended(states, steps, BeginLayers(0, None, key), y0.(threads := map[0 := t0]));
    states, steps := ReadsAPart(states, steps, t0, member);
    t := Layered(key, 0, AskOwn, parts, false, NewFrame(states[|steps|], [OwnRuleKey(key.p, key.u)], 0));
    assert states[|steps|].threads == map[0 := t];
  }

  /** The last part asks nothing, so the layers are built and kept. */
  lemma MixedLayersAreKept(states: seq<Sys>, steps: seq<Step>, key: ReadKey, parts: Parts, t: Thread)
    returns (more: seq<Sys>, longer: seq<Step>)
    requires Run(states, steps) && key.LayersKey? && RoleIDsOfParts(parts) == [] && parts.roles == Missing
    requires var y := states[|steps|];
             && y.history != [] && y.notified == 0 && y.memo.fence == 0 && y.threads == map[0 := t]
             && t.Layered? && t.key == key && t.fence == 0 && t.stage == AskRoles && t.parts == parts && !t.failed
             && t.frame.phase == Returned
    ensures Run(more, longer) && more[|longer|].history == states[|steps|].history
    ensures Hit(more[|longer|], key) == Some(Found(LayersValue(LayersOf(key, parts))))
  {
    var y := states[|steps|];
    var built := AfterAdvance(y, t);
    more, longer := Extended(states, steps, Advance(0), y.(threads := map[0 := built]));
    var r := Found(LayersValue(LayersOf(key, parts)));
    assert built.parts == parts && built.stage == Build;
    assert map[0 := built] - {0} == map[];
    more, longer := Extended(more, longer, Finish(0),
                             y.(memo := y.memo.(kept := y.memo.kept[key := r]), threads := map[]));
  }

  /** Where the first store has no such rule and the second no such member, they are layers no store ever had. */
  lemma AHitCanBeOfNoStore(before: Store, after: Store, key: ReadKey, info: RoleInfo, rule: Rule)
    returns (states: seq<Sys>, steps: seq<Step>)
    requires key.LayersKey? && key.w != NO_ID && key.p != NO_ID && RoleIDs(info) == []
    requires Answer(before, MemberKey(key.w, key.u)) == Found(InfoValue(info)) &&
             Answer(before, OwnRuleKey(key.p, key.u)) == Missing
    requires Answer(after, MemberKey(key.w, key.u)) == Missing &&
             Answer(after, OwnRuleKey(key.p, key.u)) == Found(RuleValue(rule))
    requires StateOf(rule, ProjectsOpen) == Allow
    ensures Run(states, steps) && states[|steps|].history == [before, after]
    ensures var hit := Hit(states[|steps|], key);
            && hit.Some? && hit.value.Found? && hit.value.value.LayersValue?
            && hit.value.value.ws.member && hit.value.value.ws.listed
            && hit.value != Answer(before, key) && hit.value != Answer(after, key)
    ensures !ReadLayers(before, key.u, key.w, key.p).listed && !ReadLayers(after, key.u, key.w, key.p).member
  {
    states, steps := AHitCanMixTwoStores(before, after, key, info, rule);
    AmongNone(before.roleOrder);
  }
}
