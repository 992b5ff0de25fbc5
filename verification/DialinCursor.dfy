/**
 Where the stored cursor stands after crashes: exactly which crashed events it has passed, and what the next batch
 delivers again.
 */
module DialinCursor {
  import opened Options
  import opened Dialin

  // ------------------------------------------------------------------ the cursor a batch leaves

  /** The event moved the cursor past itself: it was skipped, or its run finished and the cursor was stored. */
  predicate Passed(runs: map<nat, Run>, t: Option<nat>) {
    t.None? || (t.value in runs && runs[t.value].moved)
  }

  /** Just past the last event of a batch that moved the cursor, or where the batch was read from. */
  function CursorAt(after: nat, events: seq<nat>, trail: seq<Option<nat>>, runs: map<nat, Run>): nat
    requires |trail| <= |events|
  {
    if trail == [] then after
    else if Passed(runs, trail[|trail| - 1]) then events[|trail| - 1] + 1
    else CursorAt(after, events, trail[..|trail| - 1], runs)
  }

  ghost predicate Increasing(after: nat, events: seq<nat>) {
    && (forall i :: 0 <= i < |events| ==> after <= events[i])
    && (forall i, j :: 0 <= i < j < |events| ==> events[i] < events[j])
  }

  lemma {:induction false} CursorAtSame(after: nat, events: seq<nat>, trail: seq<Option<nat>>, runs: map<nat, Run>,
                                        more: map<nat, Run>)
    requires |trail| <= |events|
    requires forall j :: 0 <= j < |trail| ==> Passed(runs, trail[j]) == Passed(more, trail[j])
    ensures CursorAt(after, events, trail, runs) == CursorAt(after, events, trail, more)
    decreases |trail|
  {
    if trail != [] { CursorAtSame(after, events, trail[..|trail| - 1], runs, more); }
  }

  /** A batch's cursor has passed an event it did not pass itself exactly when some later event of the batch passed. */
  lemma {:induction false} PassedByALater(after: nat, events: seq<nat>, trail: seq<Option<nat>>, runs: map<nat, Run>,
                                          j: nat)
    requires Increasing(after, events) && j < |trail| <= |events| && !Passed(runs, trail[j])
    ensures CursorAt(after, events, trail, runs) > events[j] <==> exists k :: j < k < |trail| && Passed(runs, trail[k])
    decreases |trail|
  {
    var n := |trail| - 1;
    if j == n {
      CursorUpTo(after, events, trail[..n], runs, j);
    } else if !Passed(runs, trail[n]) {
      PassedByALater(after, events, trail[..n], runs, j);
      assert forall k :: j < k < n ==> trail[..n][k] == trail[k];
      if k :| j < k < |trail| && Passed(runs, trail[k]) { assert k < n && Passed(runs, trail[..n][k]); }
    }
  }

  lemma {:induction false} CursorUpTo(after: nat, events: seq<nat>, trail: seq<Option<nat>>, runs: map<nat, Run>,
                                      j: nat)
    requires Increasing(after, events) && |trail| <= j < |events|
    ensures CursorAt(after, events, trail, runs) <= events[j]
    decreases |trail|
  {
    if trail != [] { CursorUpTo(after, events, trail[..|trail| - 1], runs, j); }
  }

  // ------------------------------------------------------------------ the invariant

  /** Nobody else has moved the cursor since a connection last loaded it. */
  ghost predicate SoleSince(y: Sys, c: nat)
    requires c in y.conns
  {
    forall k :: y.conns[c].served.since <= k < |y.movers| ==> y.movers[k] == c
  }

  /** The batch read, and the runs its events were sent as. */
  ghost predicate BatchRead(y: Sys, c: nat)
    requires c in y.conns
  {
    var b := y.conns[c].served;
    && b.since <= |y.movers|
    && |b.trail| <= |b.events| && Increasing(b.after, b.events)
    && (forall i :: 0 <= i < |b.events| ==> b.events[i] < |y.log| && y.log[b.events[i]].subscribed)
    && (forall j :: 0 <= j < |b.trail| && b.trail[j].Some? ==> TrailRun(y, c, b, j))
  }

  /** A run of the batch is this connection's, for its event; one that moved the cursor finished. */
  ghost predicate TrailRun(y: Sys, c: nat, b: Served, j: nat)
    requires j < |b.trail| <= |b.events| && b.trail[j].Some?
  {
    var r := b.trail[j].value;
    && r in y.runs && y.runs[r].conn == c && y.runs[r].event == b.events[j]
    && (y.runs[r].moved ==> y.runs[r].outcome.Some? && y.runs[r].outcome != Some(Crash))
  }

  function Last(b: Served): Option<nat> {
    if b.trail == [] then None else b.trail[|b.trail| - 1]
  }

  /** What the loops hold is the end of the trail. */
  ghost predicate TrailEnds(y: Sys, c: nat)
    requires c in y.conns
  {
    var k := y.conns[c];
    var b, d := k.served, k.deliver;
    && (d.Loaded? ==> b.trail == [] && b.events == [] && b.after == d.after)
    && (d.Batch? ==> b.events == d.events && b.after == d.after && |b.trail| == d.i)
    && (InHand(d).Some? ==> b.events == d.events && b.after == d.after && |b.trail| == d.i + 1 && Last(b) == InHand(d))
    && (k.active.Some? ==> Last(b) == k.active && (k.active.value in y.runs ==> !y.runs[k.active.value].moved))
    && (k.reader.Recording? ==> Last(b) == Some(k.reader.run))
    && (k.reader.Recording? && k.reader.stage != ToClose && k.reader.run in y.runs ==> !y.runs[k.reader.run].moved)
  }

  /** Where the cursor stands while nobody else moves it. */
  ghost predicate CursorStands(y: Sys, c: nat)
    requires c in y.conns && |y.conns[c].served.trail| <= |y.conns[c].served.events|
  {
    var b := y.conns[c].served;
    SoleSince(y, c) ==> y.cursor == CursorAt(b.after, b.events, b.trail, y.runs)
  }

  ghost predicate TrailInv(y: Sys, c: nat) {
    c in y.conns ==> BatchRead(y, c) && TrailEnds(y, c) && CursorStands(y, c)
  }

  // ------------------------------------------------------------------ every step keeps it

  /** The runs of a connection's trail are unmoved as far as the trail goes. */
  ghost predicate TrailUnmoved(y: Sys, z: Sys, b: Served) {
    forall j :: 0 <= j < |b.trail| && b.trail[j].Some? && b.trail[j].value in y.runs ==>
                  && b.trail[j].value in z.runs
                  && z.runs[b.trail[j].value].moved == y.runs[b.trail[j].value].moved
  }

  lemma CursorUnmoved(y: Sys, z: Sys, c: nat)
    requires c in y.conns && c in z.conns && z.conns[c].served == y.conns[c].served
    requires BatchRead(y, c) && CursorStands(y, c) && TrailUnmoved(y, z, y.conns[c].served)
    requires z.cursor == y.cursor && z.movers == y.movers
    ensures CursorStands(z, c)
  {
    var b := y.conns[c].served;
    forall j | 0 <= j < |b.trail| ensures Passed(y.runs, b.trail[j]) == Passed(z.runs, b.trail[j]) {
      if b.trail[j].Some? { assert TrailRun(y, c, b, j); }
    }
    CursorAtSame(b.after, b.events, b.trail, y.runs, z.runs);
  }

  /** A connection a step leaves alone, with all its runs. */
  lemma TrailStays(y: Sys, z: Sys, c: nat)
    requires TrailInv(y, c) && c in y.conns && c in z.conns && z.conns[c] == y.conns[c]
    requires |y.log| <= |z.log| && z.log[..|y.log|] == y.log
    requires forall r :: r in y.runs && y.runs[r].conn == c ==> r in z.runs && z.runs[r] == y.runs[r]
    requires forall r :: r in y.runs && r in z.runs ==> z.runs[r].moved == y.runs[r].moved || y.runs[r].conn != c
    requires Inv(y)
    requires (z.cursor == y.cursor && z.movers == y.movers) ||
             (|z.movers| == |y.movers| + 1 && z.movers[|y.movers|] != c)
    ensures TrailInv(z, c)
  {
    var b := y.conns[c].served;
    assert ConnInv(y, c);
    forall i | 0 <= i < |b.events| ensures b.events[i] < |z.log| && z.log[b.events[i]].subscribed {
      assert z.log[..|y.log|][b.events[i]] == y.log[b.events[i]];
    }
    forall j | 0 <= j < |b.trail| && b.trail[j].Some? ensures TrailRun(z, c, b, j) { assert TrailRun(y, c, b, j); }
    assert TrailUnmoved(y, z, b) by {
      forall j | 0 <= j < |b.trail| && b.trail[j].Some? && b.trail[j].value in y.runs
        ensures b.trail[j].value in z.runs && z.runs[b.trail[j].value].moved == y.runs[b.trail[j].value].moved
      {
        assert TrailRun(y, c, b, j);
      }
    }
    if z.movers == y.movers { CursorUnmoved(y, z, c); }
  }

  lemma OthersLeaveTheTrail(y: Sys, step: Step, c: nat)
    requires Inv(y) && Enabled(y, step) && TrailInv(y, c) && c in y.conns && (step.Append? || step.c != c)
    ensures TrailInv(Apply(y, step), c)
  {
    var z := Apply(y, step);
    if !step.Append? { OtherStepLeaves(y, step, c); }
    assert z.log[..|y.log|] == y.log;
    TrailStays(y, z, c);
  }

  /** A step of one connection leaves another, with its runs, alone. */
  ghost predicate LeavesOther(y: Sys, z: Sys, mover: nat, c: nat)
    requires c in y.conns
  {
    && c in z.conns && z.conns[c] == y.conns[c] && z.log == y.log
    && ((z.cursor == y.cursor && z.movers == y.movers) || z.movers == y.movers + [mover])
    && forall r :: r in y.runs && y.runs[r].conn == c ==> r in z.runs && z.runs[r] == y.runs[r]
  }

  lemma OtherPeerLeaves(y: Sys, step: Step, c: nat)
    requires Inv(y) && Enabled(y, step) && (step.Receive? || step.PeerGone?) && step.c != c && c in y.conns
    ensures LeavesOther(y, Apply(y, step), step.c, c)
  {
    assert ConnInv(y, step.c);
  }

  lemma OtherStepLeaves(y: Sys, step: Step, c: nat)
    requires Inv(y) && Enabled(y, step) && !step.Append? && step.c != c && c in y.conns
    ensures LeavesOther(y, Apply(y, step), step.c, c)
  {
    if step.Receive? || step.PeerGone? {
      OtherPeerLeaves(y, step, c);
    } else if step.c in y.conns {
      assert ConnInv(y, step.c);
    }
  }

  /** A step that leaves the cursor and every run's place alone, and a moved run's outcome. */
  ghost predicate LeavesRuns(y: Sys, z: Sys, c: nat)
    requires c in y.conns
  {
    && z.log == y.log && z.cursor == y.cursor && z.movers == y.movers
    && c in z.conns && z.conns[c].served == y.conns[c].served
    && forall r :: r in y.runs ==>
                     && r in z.runs && z.runs[r].conn == y.runs[r].conn && z.runs[r].event == y.runs[r].event
                     && z.runs[r].moved == y.runs[r].moved
                     && (y.runs[r].moved ==> z.runs[r].outcome == y.runs[r].outcome)
  }

  /** A step of the connection itself that neither moves the cursor nor touches its batch's record. */
  lemma OwnStepLeavesTheCursor(y: Sys, z: Sys, c: nat)
    requires TrailInv(y, c) && c in y.conns && c in z.conns && LeavesRuns(y, z, c)
    requires TrailEnds(z, c)
    ensures TrailInv(z, c)
  {
    var b := y.conns[c].served;
    forall j | 0 <= j < |b.trail| && b.trail[j].Some? ensures TrailRun(z, c, b, j) { assert TrailRun(y, c, b, j); }
    CursorUnmoved(y, z, c);
  }

  lemma LoadsKeepTheTrail(y: Sys, step: Step, c: nat)
    requires Inv(y) && Enabled(y, step) && TrailInv(y, c) && (step == Load(c) || step == ReadLog(c))
    ensures TrailInv(Apply(y, step), c)
  {
    assert ConnInv(y, c);
    var d := y.conns[c].deliver;
    if step == ReadLog(c) {
      var events := After(y.log, d.after, y.limit);
      AfterIsConsecutive(y.log, d.after, y.limit);
      ConsecutiveIncreases(y.log, d.after, events);
    }
  }

  lemma {:induction false} ConsecutiveIncreases(log: seq<Event>, after: nat, events: seq<nat>)
    requires Consecutive(log, after, events)
    ensures Increasing(after, events)
    ensures forall i :: 0 <= i < |events| ==> events[i] < |log| && log[events[i]].subscribed
  {
    forall i | 0 <= i < |events| ensures after <= events[i] < |log| && log[events[i]].subscribed {
      assert NextEvent(log, after, events, i);
    }
    forall i, j | 0 <= i < j < |events| ensures events[i] < events[j] {
      StepsIncrease(log, after, events, i, j);
    }
  }

  lemma {:induction false} StepsIncrease(log: seq<Event>, after: nat, events: seq<nat>, i: nat, j: nat)
    requires Consecutive(log, after, events) && i < j < |events|
    ensures events[i] < events[j]
    decreases j
  {
    assert NextEvent(log, after, events, j);
    if i < j - 1 { StepsIncrease(log, after, events, i, j - 1); }
  }

  lemma SkipKeepsTheTrail(y: Sys, c: nat)
    requires Inv(y) && Enabled(y, Skip(c)) && TrailInv(y, c)
    ensures TrailInv(Apply(y, Skip(c)), c)
  {
    var z := Apply(y, Skip(c));
    var b := y.conns[c].served;
    assert ConnInv(y, c);
    forall j | 0 <= j < |b.trail| && b.trail[j].Some? ensures TrailRun(z, c, z.conns[c].served, j) {
      assert TrailRun(y, c, b, j);
    }
  }

  lemma SendKeepsTheTrail(y: Sys, c: nat, r: nat)
    requires Inv(y) && Enabled(y, Send(c, r)) && TrailInv(y, c)
    ensures TrailInv(Apply(y, Send(c, r)), c)
  {
    var z := Apply(y, Send(c, r));
    var b, more := y.conns[c].served, z.conns[c].served;
    assert ConnInv(y, c);
    forall j | 0 <= j < |b.trail| && b.trail[j].Some? ensures TrailRun(z, c, more, j) { assert TrailRun(y, c, b, j); }
    SentCursorStands(y, c, r);
  }

  lemma SentCursorStands(y: Sys, c: nat, r: nat)
    requires Enabled(y, Send(c, r)) && BatchRead(y, c) && CursorStands(y, c)
    requires |y.conns[c].served.trail| < |y.conns[c].served.events|
    ensures CursorStands(Apply(y, Send(c, r)), c)
  {
    var z := Apply(y, Send(c, r));
    var b, more := y.conns[c].served, z.conns[c].served;
    assert more.trail[..|b.trail|] == b.trail;
    forall j | 0 <= j < |b.trail| ensures Passed(y.runs, b.trail[j]) == Passed(z.runs, b.trail[j]) {
      if b.trail[j].Some? { assert TrailRun(y, c, b, j); }
    }
    CursorAtSame(b.after, b.events, b.trail, y.runs, z.runs);
  }

  lemma MoveKeepsTheTrail(y: Sys, c: nat)
    requires Inv(y) && Enabled(y, Move(c, false)) && TrailInv(y, c)
    ensures TrailInv(Apply(y, Move(c, false)), c)
  {
    var z := Apply(y, Move(c, false));
    var b := y.conns[c].served;
    assert ConnInv(y, c);
    var last := |b.trail| - 1;
    assert TrailRun(y, c, b, last);
    forall j | 0 <= j < |b.trail| && b.trail[j].Some? ensures TrailRun(z, c, b, j) { assert TrailRun(y, c, b, j); }
    assert Passed(z.runs, b.trail[last]);
  }

  /** The steps of a connection that leave the cursor and its batch's record alone. */
  predicate IsQuiet(step: Step) {
    || step.GiveUp? || step.SendOk? || step.SendFail? || step.SeeDone? || step.SeeCancel?
    || step.Receive? || step.Create? || step.Close? || step.PeerGone? || (step.Move? && step.fails)
  }

  lemma PeerKeepsTrailEnds(y: Sys, step: Step, c: nat)
    requires Inv(y) && Enabled(y, step) && TrailInv(y, c) && (step.Receive? || step.PeerGone?) && step.c == c
    ensures TrailEnds(Apply(y, step), c)
  {
    assert ConnInv(y, c);
    if y.conns[c].active.Some? { assert RunInv(y, y.conns[c].active.value); }
  }

  lemma QuietKeepsTrailEnds(y: Sys, step: Step, c: nat)
    requires Inv(y) && Enabled(y, step) && TrailInv(y, c) && IsQuiet(step) && step.c == c
    ensures TrailEnds(Apply(y, step), c)
  {
    if step.Receive? || step.PeerGone? {
      PeerKeepsTrailEnds(y, step, c);
    } else {
      assert ConnInv(y, c);
      if y.conns[c].reader.Recording? { assert RunInv(y, y.conns[c].reader.run); }
    }
  }

  lemma FrameLeavesRuns(y: Sys, frame: Frame, c: nat)
    requires Inv(y) && Enabled(y, Receive(c, frame)) && TrailInv(y, c)
    ensures LeavesRuns(y, Apply(y, Receive(c, frame)), c)
  {
    if y.conns[c].active.Some? {
      assert ConnInv(y, c);
      assert RunInv(y, y.conns[c].active.value);
    }
  }

  lemma PeerGoneLeavesRuns(y: Sys, c: nat)
    requires Inv(y) && Enabled(y, PeerGone(c)) && TrailInv(y, c)
    ensures LeavesRuns(y, Apply(y, PeerGone(c)), c)
  {
    if y.conns[c].active.Some? {
      assert ConnInv(y, c);
      assert RunInv(y, y.conns[c].active.value);
    }
  }

  lemma RecordingLeavesRuns(y: Sys, step: Step, c: nat)
    requires Enabled(y, step) && (step.Create? || step.Close? || (step.Move? && step.fails)) && step.c == c
    ensures LeavesRuns(y, Apply(y, step), c)
  {
  }

  lemma DeliveryLeavesRuns(y: Sys, step: Step, c: nat)
    requires Enabled(y, step) && (step.GiveUp? || step.SendOk? || step.SendFail? || step.SeeDone? || step.SeeCancel?)
    requires step.c == c
    ensures LeavesRuns(y, Apply(y, step), c)
  {
  }

  lemma QuietLeavesRuns(y: Sys, step: Step, c: nat)
    requires Inv(y) && Enabled(y, step) && TrailInv(y, c) && IsQuiet(step) && step.c == c
    ensures LeavesRuns(y, Apply(y, step), c)
  {
    if step.Receive? {
      FrameLeavesRuns(y, step.frame, c);
    } else if step.PeerGone? {
      PeerGoneLeavesRuns(y, c);
    } else if step.Create? || step.Close? || step.Move? {
      RecordingLeavesRuns(y, step, c);
    } else {
      DeliveryLeavesRuns(y, step, c);
    }
  }

  lemma StepKeepsTrail(y: Sys, step: Step, c: nat)
    requires Inv(y) && Enabled(y, step) && TrailInv(y, c)
    ensures TrailInv(Apply(y, step), c)
  {
    if c !in y.conns {
      TrailStarts(y, step, c);
    } else if step.Append? || step.c != c {
      OthersLeaveTheTrail(y, step, c);
    } else if step.Load? || step.ReadLog? {
      LoadsKeepTheTrail(y, step, c);
    } else if step.Skip? {
      SkipKeepsTheTrail(y, c);
    } else if step.Send? {
      SendKeepsTheTrail(y, c, step.run);
    } else if step.Move? && !step.fails {
      MoveKeepsTheTrail(y, c);
    } else {
      QuietKeepsTrailEnds(y, step, c);
      QuietLeavesRuns(y, step, c);
      OwnStepLeavesTheCursor(y, Apply(y, step), c);
    }
  }

  lemma TrailStarts(y: Sys, step: Step, c: nat)
    requires Enabled(y, step) && c !in y.conns
    ensures TrailInv(Apply(y, step), c)
  {
    if !step.Append? && step.c != c { assert c !in Apply(y, step).conns; }
  }

  lemma {:induction false} RunKeepsTrail(states: seq<Sys>, steps: seq<Step>, n: nat, c: nat)
    requires IsRun(states, steps) && n < |states|
    ensures TrailInv(states[n], c)
  {
    if n > 0 {
      RunKeepsInv(states, steps, n - 1);
      RunKeepsTrail(states, steps, n - 1, c);
      StepKeepsTrail(states[n - 1], steps[n - 1], c);
    }
  }

  // ------------------------------------------------------------------ the theorems

  /** Event `j` of the connection's latest batch was sent as a run that crashed. */
  ghost predicate CrashedAt(y: Sys, c: nat, j: nat) {
    && c in y.conns && j < |y.conns[c].served.trail| <= |y.conns[c].served.events|
    && var t := y.conns[c].served.trail[j];
    t.Some? && t.value in y.runs && y.runs[t.value].outcome == Some(Crash)
  }

  /**
   Over any run, while nobody else has moved the cursor since a connection loaded it, the cursor has passed a crashed
   event of its batch exactly when a later event of that batch was skipped, or finished and its cursor stored. It does
   not matter whether the delivery loop has seen the crash, or has ended.
   */
  lemma ACrashIsPassedExactlyWhen(states: seq<Sys>, steps: seq<Step>, n: nat, c: nat, j: nat)
    requires IsRun(states, steps) && n < |states| && CrashedAt(states[n], c, j) && SoleSince(states[n], c)
    ensures var y := states[n]; var b := y.conns[c].served;
                                y.cursor > b.events[j] <==> exists k :: j < k < |b.trail| && Passed(y.runs, b.trail[k])
  {
    RunKeepsTrail(states, steps, n, c);
    var y := states[n];
    var b := y.conns[c].served;
    assert TrailRun(y, c, b, j);
    PassedByALater(b.after, b.events, b.trail, y.runs, j);
  }

  /**
   When the last event a connection dealt with crashed and nobody else has moved the cursor since it loaded it, the
   cursor is still before that event, and the next batch anyone reads opens at it or earlier: it is delivered again.
   */
  lemma ALastCrashHoldsTheCursor(states: seq<Sys>, steps: seq<Step>, n: nat, c: nat)
    requires IsRun(states, steps) && n < |states| && states[n].limit > 0
    requires c in states[n].conns && states[n].conns[c].served.trail != [] && SoleSince(states[n], c)
    requires CrashedAt(states[n], c, |states[n].conns[c].served.trail| - 1)
    ensures var y := states[n]; var e := y.conns[c].served.events[|y.conns[c].served.trail| - 1];
                                && y.cursor <= e < |y.log|
                                && After(y.log, y.cursor, y.limit) != [] && After(y.log, y.cursor, y.limit)[0] <= e
  {
    var y := states[n];
    var b := y.conns[c].served;
    ACrashIsPassedExactlyWhen(states, steps, n, c, |b.trail| - 1);
    RunKeepsTrail(states, steps, n, c);
    BatchOpensBy(y.log, y.cursor, y.limit, b.events[|b.trail| - 1]);
  }

  // ------------------------------------------------------------------ what does not hold

  /** One more step of a run, to the state it is expected to reach. */
  lemma Extended(states: seq<Sys>, steps: seq<Step>, step: Step, reached: Sys)
    returns (more: seq<Sys>, longer: seq<Step>)
    requires IsRun(states, steps) && Enabled(states[|steps|], step) && Apply(states[|steps|], step) == reached
    ensures IsRun(more, longer) && |longer| == |steps| + 1 && more[|longer|] == reached
  {
    more, longer := states + [reached], steps + [step];
  }

  function At(log: seq<Event>, conn: Conn, runs: map<nat, Run>): Sys {
    Sys(log, 0, 0, runs, map[1 := conn], 50, [])
  }

  const SENT := Run(1, 0, true, 0, false, false, 0, None, [])

  /** Connection 1 with its first event sent as run 7. */
  function Sent(deliver: Deliver, reader: Reader, events: seq<nat>): Conn {
    Conn(None, deliver, reader, Served(0, events, [Some(7)], 0))
  }

  /** Connection 1 loads the cursor and reads its batch. */
  lemma BatchIsRead(log: seq<Event>, events: seq<nat>) returns (states: seq<Sys>, steps: seq<Step>)
    requires log != [] && events != [] && After(log, 0, 50) == events
    ensures IsRun(states, steps)
    ensures states[|steps|] == At(log, Conn(None, Batch(0, events, 0), Reading, Served(0, events, [], 0)), map[])
  {
    var idle := Conn(None, Between, Reading, Served(0, [], [], 0));
    states, steps := [Sys(log, 0, 0, map[], map[], 50, [])], [];
    states, steps := Extended(states, steps, Connect(1, true), At(log, idle, map[]));
    states, steps := Extended(states, steps, Load(1), At(log, idle.(deliver := Loaded(0)), map[]));
    var read := Conn(None, Batch(0, events, 0), Reading, Served(0, events, [], 0));
    states, steps := Extended(states, steps, ReadLog(1), At(log, read, map[]));
  }

  /** The opening of both runs below: connection 1 sends the first event of its batch as run 7. */
  lemma OpeningRuns(log: seq<Event>, events: seq<nat>) returns (states: seq<Sys>, steps: seq<Step>)
    requires log != [] && log[0].inScope && events != [] && events[0] == 0 && After(log, 0, 50) == events
    ensures IsRun(states, steps)
    ensures states[|steps|] ==
            At(log, Sent(Waiting(0, events, 0, 7), Reading, events).(active := Some(7)), map[7 := SENT])
  {
    states, steps := BatchIsRead(log, events);
    var sending := Sent(Sending(0, events, 0, 7), Reading, events).(active := Some(7));
    assert [] + [Some(7)] == [Some(7)];
    states, steps := Extended(states, steps, Send(1, 7), At(log, sending, map[7 := SENT.(delivered := false)]));
    var waiting := sending.(deliver := Waiting(0, events, 0, 7));
    states, steps := Extended(states, steps, SendOk(1), At(log, waiting, map[7 := SENT]));
  }

  const CRASHED := SENT.(outcome := Some(Crash), attempts := 1, reported := true)

  /** The peer reports the first event's run crashed, and the report is persisted. */
  lemma CrashIsRecorded(log: seq<Event>, events: seq<nat>) returns (states: seq<Sys>, steps: seq<Step>)
    requires log != [] && log[0].inScope && events != [] && events[0] == 0 && After(log, 0, 50) == events
    ensures IsRun(states, steps)
    ensures states[|steps|] == At(log, Sent(Waiting(0, events, 0, 7), Reading, events), map[7 := CRASHED.(closes := 1)])
  {
    states, steps := OpeningRuns(log, events);
    var waiting := Sent(Waiting(0, events, 0, 7), Reading, events);
    states, steps := Extended(states, steps, Receive(1, Crashed(7)),
                              At(log, waiting.(reader := Recording(7, Crash, ToCreate, false)),
                                 map[7 := SENT.(outcome := Some(Crash))]));
    states, steps := Extended(states, steps, Create(1, false),
                              At(log, waiting.(reader := Recording(7, Crash, ToClose, false)), map[7 := CRASHED]));
    states, steps := Extended(states, steps, Close(1), At(log, waiting, map[7 := CRASHED.(closes := 1)]));
  }

  /** A crash that is not last in its batch is passed over: the next event, skipped, moves the cursor past it. */
  lemma ACrashCanBePassedOver() returns (states: seq<Sys>, steps: seq<Step>)
    ensures IsRun(states, steps)
    ensures CrashedAt(states[|steps|], 1, 0) && SoleSince(states[|steps|], 1)
    ensures states[|steps|].cursor > states[|steps|].conns[1].served.events[0]
  {
    var log := [Event(true, true), Event(true, false)];
    assert After(log, 1, 49) == [1] + [];
    assert After(log, 0, 50) == [0] + After(log, 1, 49) == [0, 1];
    states, steps := CrashIsRecorded(log, [0, 1]);
    var runs := states[|steps|].runs;
    states, steps := Extended(states, steps, SeeDone(1), At(log, Sent(Batch(0, [0, 1], 1), Reading, [0, 1]), runs));
    var skipped := Conn(None, Between, Reading, Served(0, [0, 1], [Some(7), None], 0));
    assert [Some(7)] + [None] == [Some(7), None] && [] + [1] == [1];
    states, steps := Extended(states, steps, Skip(1), At(log, skipped, runs).(cursor := 2, movers := [1]));
  }

  const LOST := SENT.(outcome := Some(Success), attempts := 1)

  /** The peer reports the first event's run finished, and persisting the report fails. */
  lemma FinishIsLost(log: seq<Event>, events: seq<nat>) returns (states: seq<Sys>, steps: seq<Step>)
    requires log != [] && log[0].inScope && events != [] && events[0] == 0 && After(log, 0, 50) == events
    ensures IsRun(states, steps)
    ensures states[|steps|] ==
            At(log, Sent(Waiting(0, events, 0, 7), Recording(7, Success, ToMove, false), events), map[7 := LOST])
  {
    states, steps := OpeningRuns(log, events);
    var waiting := Sent(Waiting(0, events, 0, 7), Reading, events);
    states, steps := Extended(states, steps, Receive(1, Finished(7, true)),
                              At(log, waiting.(reader := Recording(7, Success, ToCreate, false)),
                                 map[7 := SENT.(outcome := Some(Success))]));
    states, steps := Extended(states, steps, Create(1, true),
                              At(log, waiting.(reader := Recording(7, Success, ToMove, false)), map[7 := LOST]));
  }

  /** A report that fails to persist is only logged, and the cursor moves on all the same: the event has no report. */
  lemma AReportCanBeLost() returns (states: seq<Sys>, steps: seq<Step>)
    ensures IsRun(states, steps)
    ensures var y := states[|steps|];
            y.cursor == 1 && y.start == 0 && y.log == [Event(true, true)] && !Reported(y.runs, 0)
  {
    var log := [Event(true, true)];
    assert After(log, 1, 49) == [];
    assert After(log, 0, 50) == [0] + After(log, 1, 49) == [0];
    states, steps := FinishIsLost(log, [0]);
    var closing := Sent(Waiting(0, [0], 0, 7), Recording(7, Success, ToClose, false), [0]);
    states, steps := Extended(states, steps, Move(1, false),
                              At(log, closing, map[7 := LOST.(moved := true)]).(cursor := 1, movers := [1]));
  }
}
