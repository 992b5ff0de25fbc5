/**
 What an answer means. Every verdict a check can give names a source that agrees with it; and the answers that spread
 over a person's workspaces, on machines and instance areas, are read without their loops.
 */
module Answers {
  import opened Options
  import opened AccessModel
  import opened Evaluator
  import opened AccessStore

  // ------------------------------------------------------------------ the source agrees with the answer

  predicate Honest(v: Verdict) {
    v.allowed <==> v.source.state == Allow
  }

  lemma RulesKeepHonest(v: Verdict, r: Option<Rules>, ids: seq<Id>, a: Action)
    requires Honest(v)
    ensures Honest(ApplyRules(v, r, ids, a))
  {
  }

  lemma {:induction false} ChainKeepsHonest(v: Verdict, chain: seq<Option<Rules>>, ids: seq<Id>, a: Action)
    requires Honest(v)
    ensures Honest(ApplyChain(v, chain, ids, a))
    decreases |chain|
  {
    if chain != [] { ChainKeepsHonest(ApplyRules(v, chain[0], ids, a), chain[1..], ids, a); }
  }

  /** A person's layers grant only through a role they name. */
  predicate GrantsHonestly(ws: Layers) {
    (ws.member && GrantsThroughRoles(ws.roles)) || ws.roles == NO_ROLES
  }

  lemma LayersGrantHonestly(s: Store, view: Option<Id>, u: Id, w: Id, p: Id)
    requires Consistent(s)
    ensures GrantsHonestly(LayersFor(s, view, u, w, p))
  {
  }

  lemma DecideIsHonest(ws: Layers, a: Action, chain: seq<Option<Rules>>)
    requires GrantsHonestly(ws)
    ensures Honest(Decide(ws, a, chain)) && Honest(Granted(ws, a))
  {
    if !ws.owner && !Hidden(ws) && a != Member {
      RulesKeepHonest(Granted(ws, a), ws.project, RoleIDs(ws.roles), a);
      ChainKeepsHonest(Has(ws, a), chain, RoleIDs(ws.roles), a);
    }
  }

  /** On a doc, folder, project, play, stack or channel the source's state is Allow exactly when the answer is yes. */
  lemma CheckSourceIsTheAnswer(s: Store, view: Option<Id>, u: Id, w: Id, p: Id, a: Action, on: Resource)
    requires Consistent(s)
    ensures Check(s, view, u, w, p, a, on).allowed <==> Check(s, view, u, w, p, a, on).source.state == Allow
  {
    LayersGrantHonestly(s, view, u, w, p);
    LayersGrantHonestly(s, view, u, w, NO_ID);
    DecideIsHonest(LayersFor(s, view, u, w, p), a, ChainOf(s, on, u));
    var ws := LayersFor(s, view, u, w, NO_ID);
    DecideIsHonest(ws, CHANNELS_READ, []);
    RulesKeepHonest(ChannelBase(s, u, on.id), RulesOn(s, Resource(ChannelKind, on.id), u), RoleIDs(ws.roles),
                    CHANNELS_READ);
  }

  lemma {:induction false} SpreadIsHonest(v: Verdict, layers: seq<Layers>, a: Action)
    requires Honest(v) && forall i :: 0 <= i < |layers| ==> GrantsHonestly(layers[i])
    ensures Honest(Spread(v, layers, a))
    decreases |layers|
  {
    if layers != [] && !v.allowed {
      var g := Granted(layers[0], a);
      DecideIsHonest(layers[0], a, []);
      SpreadIsHonest(if g.allowed || RoleIDs(layers[0].roles) != [] then g else v, layers[1..], a);
    }
  }

  /** On a machine, what-if included. */
  lemma MachineSourceIsTheAnswer(s: Store, view: Option<Id>, u: Id, m: Id, a: Action, fallback: bool)
    requires Consistent(s)
    ensures var x := MachineView(s, view, u, m, a, fallback); x.held <==> x.source.state == Allow
  {
    var h := HolderOf(s, view, u, m);
    if h.known && h.owner.None? {
      var layers := LayersAcross(s, view, u, WorkspacesOf(s, view, u));
      forall i | 0 <= i < |layers| ensures GrantsHonestly(layers[i]) {
        LayersGrantHonestly(s, view, u, WorkspacesOf(s, view, u)[i], NO_ID);
      }
      SpreadIsHonest(NoRoleAnswer(u), layers, a);
      var seeRules := if fallback && a == MachinesSee then Without(h, a) else h.rules;
      RulesKeepHonest(Verdict(false, SourceOf(NotOnMachine, Resource(MachineKind, m), h.target, false)), seeRules,
                      h.roleIDs, MachinesSee);
      RulesKeepHonest(BitsAnswer(h.bits, a), if fallback then Without(h, a) else h.rules, h.roleIDs, a);
    }
  }

  lemma {:induction false} ScanIsHonest(s: Store, view: Option<Id>, u: Id, workspaceIDs: seq<Id>, area: Id, a: Action,
                                        scan: AreaScan)
    requires Consistent(s) && Honest(scan.v)
    ensures Honest(Scan(s, view, u, workspaceIDs, area, a, scan).v)
    decreases |workspaceIDs|
  {
    if workspaceIDs != [] {
      LayersGrantHonestly(s, view, u, workspaceIDs[0], NO_ID);
      DecideIsHonest(LayersFor(s, view, u, workspaceIDs[0], NO_ID), a, []);
      ScanIsHonest(s, view, u, workspaceIDs[1..], area, a, ScanStep(s, view, u, workspaceIDs[0], area, a, scan));
    }
  }

  /** On an instance area, what-if included. */
  lemma AreaSourceIsTheAnswer(s: Store, view: Option<Id>, u: Id, area: Id, a: Action, own: bool)
    requires Consistent(s)
    ensures var v := DecideArea(s, view, u, area, a, own); v.allowed <==> v.source.state == Allow
  {
    var start := Scanning(NoRoleAnswer(u), [], false);
    ScanIsHonest(s, view, u, WorkspacesOf(s, view, u), area, a, start);
    var scan := Scan(s, view, u, WorkspacesOf(s, view, u), area, a, start);
    if scan.Scanning? {
      var v := if scan.ownsAnother && !scan.v.allowed
      then scan.v.(source := SourceOf(InstanceOwnerSource, Resource(AreaKind, area), Person(u), false))
      else scan.v;
      var rules := RulesOn(s, Resource(AreaKind, area), u);
      RulesKeepHonest(v, if own then rules else PersonAtFallback(rules, a), scan.roleIDs, a);
    }
  }

  // ------------------------------------------------------------------ answers spread over workspaces

  /** Some workspace's roles grant the action. */
  ghost predicate SomeGrants(layers: seq<Layers>, a: Action) {
    exists i :: 0 <= i < |layers| && a in layers[i].roles.permissions
  }

  lemma GrantsFirstOrLater(layers: seq<Layers>, a: Action)
    requires layers != []
    ensures SomeGrants(layers, a) <==> a in layers[0].roles.permissions || SomeGrants(layers[1..], a)
  {
    if SomeGrants(layers[1..], a) {
      var i :| 0 <= i < |layers[1..]| && a in layers[1..][i].roles.permissions;
      assert a in layers[i + 1].roles.permissions;
    }
    if i :| 0 <= i < |layers| && a in layers[i].roles.permissions {
      if i > 0 { assert a in layers[1..][i - 1].roles.permissions; }
    }
  }

  lemma {:induction false} SpreadSays(v: Verdict, layers: seq<Layers>, a: Action)
    ensures Spread(v, layers, a).allowed <==> v.allowed || SomeGrants(layers, a)
    decreases |layers|
  {
    if layers != [] {
      GrantsFirstOrLater(layers, a);
      var g := Granted(layers[0], a);
      if !v.allowed { SpreadSays(if g.allowed || RoleIDs(layers[0].roles) != [] then g else v, layers[1..], a); }
    }
  }

  /** The answer is the first workspace's whose roles grant the action, else the last's where some role is held. */
  ghost predicate NamesAWorkspace(v: Verdict, layers: seq<Layers>, a: Action, out: Verdict) {
    || (exists i :: 0 <= i < |layers| && out == Granted(layers[i], a) && a in layers[i].roles.permissions &&
                    forall j :: 0 <= j < i ==> a !in layers[j].roles.permissions)
    || (!SomeGrants(layers, a) &&
        exists i :: 0 <= i < |layers| && out == Granted(layers[i], a) && RoleIDs(layers[i].roles) != [] &&
                    forall j :: i < j < |layers| ==> RoleIDs(layers[j].roles) == [])
    || (!SomeGrants(layers, a) && out == v && forall j :: 0 <= j < |layers| ==> RoleIDs(layers[j].roles) == [])
  }

  lemma {:induction false} SpreadNames(v: Verdict, layers: seq<Layers>, a: Action)
    requires !v.allowed
    ensures NamesAWorkspace(v, layers, a, Spread(v, layers, a))
    decreases |layers|
  {
    if layers != [] {
      var rest, g := layers[1..], Granted(layers[0], a);
      GrantsFirstOrLater(layers, a);
      assert forall j :: 0 <= j < |rest| ==> rest[j] == layers[j + 1];
      assert forall j :: 0 < j < |layers| ==> layers[j] == rest[j - 1];
      if !g.allowed {
        var next := if RoleIDs(layers[0].roles) != [] then g else v;
        SpreadNames(next, rest, a);
        NamedInTheRest(v, layers, a, Spread(next, rest, a));
      }
    }
  }

  lemma NamedInTheRest(v: Verdict, layers: seq<Layers>, a: Action, out: Verdict)
    requires layers != [] && a !in layers[0].roles.permissions
    requires NamesAWorkspace(if RoleIDs(layers[0].roles) != [] then Granted(layers[0], a) else v, layers[1..], a, out)
    ensures NamesAWorkspace(v, layers, a, out)
  {
    var rest := layers[1..];
    GrantsFirstOrLater(layers, a);
    assert forall j :: 0 <= j < |rest| ==> rest[j] == layers[j + 1];
    assert forall j :: 0 < j < |layers| ==> layers[j] == rest[j - 1];
    if i :| 0 <= i < |rest| && out == Granted(rest[i], a) && a in rest[i].roles.permissions &&
            forall j :: 0 <= j < i ==> a !in rest[j].roles.permissions {
      assert out == Granted(layers[i + 1], a) && a in layers[i + 1].roles.permissions;
      assert forall j :: 0 <= j < i + 1 ==> a !in layers[j].roles.permissions;
    } else if i :| !SomeGrants(rest, a) && 0 <= i < |rest| && out == Granted(rest[i], a) &&
                   RoleIDs(rest[i].roles) != [] && forall j :: i < j < |rest| ==> RoleIDs(rest[j].roles) == [] {
      assert out == Granted(layers[i + 1], a) && RoleIDs(layers[i + 1].roles) != [];
      assert forall j :: i + 1 < j < |layers| ==> RoleIDs(layers[j].roles) == [];
    }
  }

  /** An area's scan that no Owner settles answers as a machine's spread over the same workspaces. */
  lemma {:induction false} ScanIsSpread(s: Store, view: Option<Id>, u: Id, workspaceIDs: seq<Id>, area: Id, a: Action,
                                        scan: AreaScan)
    requires scan.Scanning?
    ensures var end := Scan(s, view, u, workspaceIDs, area, a, scan);
            end.Scanning? ==> end.v == Spread(scan.v, LayersAcross(s, view, u, workspaceIDs), a)
    decreases |workspaceIDs|
  {
    if workspaceIDs != [] {
      var next := ScanStep(s, view, u, workspaceIDs[0], area, a, scan);
      var layers := LayersAcross(s, view, u, workspaceIDs);
      assert layers[1..] == LayersAcross(s, view, u, workspaceIDs[1..]);
      if next.Settled? {
        SettledStays(s, view, u, workspaceIDs[1..], area, a, next);
      } else {
        ScanIsSpread(s, view, u, workspaceIDs[1..], area, a, next);
        SpreadStays(next.v, layers[1..], a);
      }
    }
  }

  ghost predicate SomeOwner(layers: seq<Layers>) {
    exists i :: 0 <= i < |layers| && layers[i].owner
  }

  /** It remembers whether the person owns any of the workspaces. */
  lemma {:induction false} ScanOwns(s: Store, view: Option<Id>, u: Id, workspaceIDs: seq<Id>, area: Id, a: Action,
                                    scan: AreaScan)
    requires scan.Scanning?
    ensures var end := Scan(s, view, u, workspaceIDs, area, a, scan);
            end.Scanning? ==>
              (end.ownsAnother <==> scan.ownsAnother || SomeOwner(LayersAcross(s, view, u, workspaceIDs)))
    decreases |workspaceIDs|
  {
    if workspaceIDs != [] {
      var next := ScanStep(s, view, u, workspaceIDs[0], area, a, scan);
      var layers := LayersAcross(s, view, u, workspaceIDs);
      assert layers[1..] == LayersAcross(s, view, u, workspaceIDs[1..]);
      assert SomeOwner(layers) <==> layers[0].owner || SomeOwner(layers[1..]) by {
        if i :| 0 <= i < |layers[1..]| && layers[1..][i].owner { assert layers[i + 1].owner; }
        if i :| 0 < i < |layers| && layers[i].owner { assert layers[1..][i - 1].owner; }
      }
      if next.Settled? {
        SettledStays(s, view, u, workspaceIDs[1..], area, a, next);
      } else {
        ScanOwns(s, view, u, workspaceIDs[1..], area, a, next);
      }
    }
  }

  lemma SpreadStays(v: Verdict, layers: seq<Layers>, a: Action)
    ensures v.allowed ==> Spread(v, layers, a) == v
  {
  }

  /** An answer with a say laid over it. */
  ghost predicate Ends(base: bool, rules: Option<Rules>, ids: seq<Id>, a: Action) {
    Say(rules, ids, a) == Allow || (Say(rules, ids, a) == Fallback && base)
  }

  lemma RulesEnd(v: Verdict, rules: Option<Rules>, ids: seq<Id>, a: Action)
    ensures ApplyRules(v, rules, ids, a).allowed <==> Ends(v.allowed, rules, ids, a)
  {
    ApplyRulesSays(v, rules, ids, a);
  }

  /**
   A machine is seen when its rules say so and nothing else; on one that is seen, an action is held as its rules say,
   and where they say nothing as some role held anywhere grants it. The instance Owner sees and holds everything on a
   machine that exists.
   */
  lemma MachineInWords(s: Store, view: Option<Id>, u: Id, m: Id, a: Action)
    requires u != NO_ID
    ensures var x := MachineView(s, view, u, m, a, false);
            var layers := LayersAcross(s, view, u, WorkspacesOf(s, view, u));
            var ids, rules := RoleIDsOf(layers), RulesOn(s, Resource(MachineKind, m), u);
            if InstanceOwner(s, view, u).Some? then (x.seen <==> m in s.machineIDs) && x.held == x.seen
            else
              && (x.seen <==> Say(rules, ids, MachinesSee) == Allow)
              && (x.held <==> x.seen && (a == MachinesSee || Ends(SomeGrants(layers, a), rules, ids, a)))
  {
    if InstanceOwner(s, view, u).None? {
      var layers := LayersAcross(s, view, u, WorkspacesOf(s, view, u));
      var ids, rules := RoleIDsOf(layers), RulesOn(s, Resource(MachineKind, m), u);
      RulesEnd(Verdict(false, SourceOf(NotOnMachine, Resource(MachineKind, m), Person(u), false)), rules, ids,
               MachinesSee);
      SpreadSays(NoRoleAnswer(u), layers, a);
      RulesEnd(Spread(NoRoleAnswer(u), layers, a), rules, ids, a);
    }
  }

  /** The person owns a workspace whose Owner settles the action. */
  ghost predicate SomeOwnerSettles(s: Store, view: Option<Id>, u: Id, workspaceIDs: seq<Id>, area: Id, a: Action) {
    exists w :: w in workspaceIDs && LayersFor(s, view, u, w, NO_ID).owner && OwnerHolds(s, w, area, a)
  }

  /** How a scan of some workspaces ends. */
  ghost predicate ScanEnds(
    s: Store, view: Option<Id>, u: Id, workspaceIDs: seq<Id>, area: Id, a: Action, scan: AreaScan, end: AreaScan)
    requires scan.Scanning?
  {
    var layers := LayersAcross(s, view, u, workspaceIDs);
    if SomeOwnerSettles(s, view, u, workspaceIDs, area, a) then end.Settled? && end.v.allowed
    else
      && end.Scanning? && end.roleIDs == scan.roleIDs + RoleIDsOf(layers)
      && (end.v.allowed <==> scan.v.allowed || SomeGrants(layers, a))
  }

  lemma ScanEndsLater(
    s: Store, view: Option<Id>, u: Id, workspaceIDs: seq<Id>, area: Id, a: Action, scan: AreaScan, end: AreaScan)
    requires scan.Scanning? && workspaceIDs != []
    requires var next := ScanStep(s, view, u, workspaceIDs[0], area, a, scan);
             next.Scanning? && ScanEnds(s, view, u, workspaceIDs[1..], area, a, next, end)
    ensures ScanEnds(s, view, u, workspaceIDs, area, a, scan, end)
  {
    var layers := LayersAcross(s, view, u, workspaceIDs);
    assert layers[1..] == LayersAcross(s, view, u, workspaceIDs[1..]);
    GrantsFirstOrLater(layers, a);
    Regroup(scan.roleIDs, RoleIDs(layers[0].roles), RoleIDsOf(layers[1..]));
    SettlesFirstOrLater(s, view, u, workspaceIDs, area, a);
  }

  lemma Regroup(x: seq<Id>, y: seq<Id>, z: seq<Id>)
    ensures (x + y) + z == x + (y + z)
  {
  }

  lemma SettlesFirstOrLater(s: Store, view: Option<Id>, u: Id, workspaceIDs: seq<Id>, area: Id, a: Action)
    requires workspaceIDs != []
    ensures SomeOwnerSettles(s, view, u, workspaceIDs, area, a) <==>
            (LayersFor(s, view, u, workspaceIDs[0], NO_ID).owner && OwnerHolds(s, workspaceIDs[0], area, a)) ||
            SomeOwnerSettles(s, view, u, workspaceIDs[1..], area, a)
  {
    assert forall x :: x in workspaceIDs <==> x == workspaceIDs[0] || x in workspaceIDs[1..];
  }

  lemma {:induction false} ScanInWords(
    s: Store, view: Option<Id>, u: Id, workspaceIDs: seq<Id>, area: Id, a: Action, scan: AreaScan)
    requires scan.Scanning?
    ensures ScanEnds(s, view, u, workspaceIDs, area, a, scan, Scan(s, view, u, workspaceIDs, area, a, scan))
    decreases |workspaceIDs|
  {
    if workspaceIDs != [] {
      var next := ScanStep(s, view, u, workspaceIDs[0], area, a, scan);
      if next.Settled? {
        SettledStays(s, view, u, workspaceIDs[1..], area, a, next);
        assert workspaceIDs[0] in workspaceIDs;
      } else {
        ScanInWords(s, view, u, workspaceIDs[1..], area, a, next);
        ScanEndsLater(s, view, u, workspaceIDs, area, a, scan, Scan(s, view, u, workspaceIDs, area, a, scan));
      }
    }
  }

  /**
   An instance-area action is held by an Owner who settles it; else as the area's rules for the roles held anywhere,
   and the one naming the person, say; else as some role held anywhere grants it. Without an area there are no rules
   to ask.
   */
  lemma AreaInWords(s: Store, view: Option<Id>, u: Id, area: Id, a: Action)
    ensures var workspaceIDs := WorkspacesOf(s, view, u);
            var layers := LayersAcross(s, view, u, workspaceIDs);
            var granted := SomeGrants(layers, a);
            DecideArea(s, view, u, area, a, true).allowed <==>
            || SomeOwnerSettles(s, view, u, workspaceIDs, area, a)
            || if area == NO_ID then granted
               else Ends(granted, RulesOn(s, Resource(AreaKind, area), u), RoleIDsOf(layers), a)
  {
    var workspaceIDs := WorkspacesOf(s, view, u);
    var start := Scanning(NoRoleAnswer(u), [], false);
    ScanInWords(s, view, u, workspaceIDs, area, a, start);
    var scan := Scan(s, view, u, workspaceIDs, area, a, start);
    if scan.Scanning? {
      var layers := LayersAcross(s, view, u, workspaceIDs);
      assert [] + RoleIDsOf(layers) == RoleIDsOf(layers);
      var v := if scan.ownsAnother && !scan.v.allowed
      then scan.v.(source := SourceOf(InstanceOwnerSource, Resource(AreaKind, area), Person(u), false))
      else scan.v;
      RulesEnd(v, RulesOn(s, Resource(AreaKind, area), u), RoleIDsOf(layers), a);
    }
  }
}
