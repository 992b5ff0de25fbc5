/**
 Dial-in event delivery. Any number of connections of one automation share a stored cursor over an ordered log. Each
 has a delivery loop, which sends one event at a time and waits for its run, and a read loop, which records what the
 automation reports. Each store write is its own step, and each may fail.
 */
module Dialin {
  import opened Options

  /** An event's position is its index; whether it is subscribed to and in scope is fixed. */
  datatype Event = Event(subscribed: bool, inScope: bool)

  datatype Outcome = Success | Failure | Crash

  /**
   A run: which connection sent which event, and what has become of it. `attempts` counts the attempts to persist its
   report, `reported` is whether one did not fail; `moved` is whether its finish stored the cursor.
   */
  datatype Run = Run(
    conn: nat, event: nat, delivered: bool, attempts: nat, reported: bool, moved: bool, closes: nat,
    outcome: Option<Outcome>, logs: seq<nat>)

  /** Where a delivery loop is. A batch keeps the cursor it was read after and the positions of its events. */
  datatype Deliver =
    | Between
    | Loaded(after: nat)
    | Batch(after: nat, events: seq<nat>, i: nat)
    | Sending(after: nat, events: seq<nat>, i: nat, run: nat)
    | Waiting(after: nat, events: seq<nat>, i: nat, run: nat)
    | Ended

  datatype Stage = ToCreate | ToMove | ToClose

  /** Where a read loop is; a final recording is the crash of a run left in flight when the peer closes. */
  datatype Reader = Reading | Recording(run: nat, outcome: Outcome, stage: Stage, final: bool) | Closed

  /**
   What a connection has done since it last loaded the cursor: where it loaded it, the batch it read, and for each
   event of the batch so far the run it was sent as, or none where it was skipped. `since` is how often the cursor had
   been moved by then.
   */
  datatype Served = Served(after: nat, events: seq<nat>, trail: seq<Option<nat>>, since: nat)

  datatype Conn = Conn(active: Option<nat>, deliver: Deliver, reader: Reader, served: Served)

  /** `movers` are the connections that moved the cursor, one for each time it was moved. */
  datatype Sys = Sys(
    log: seq<Event>, start: nat, cursor: nat, runs: map<nat, Run>, conns: map<nat, Conn>, limit: nat, movers: seq<nat>)

  /** The frames a peer sends about a run. */
  datatype Frame = Started(run: nat) | Log(run: nat, chunk: nat) | Finished(run: nat, ok: bool) | Crashed(run: nat)

  datatype Step =
    | Append(event: Event)
    | Connect(c: nat, delivers: bool)
    | Load(c: nat)
    | ReadLog(c: nat)
    | GiveUp(c: nat)
    | Skip(c: nat)
    | Send(c: nat, run: nat)
    | SendOk(c: nat)
    | SendFail(c: nat)
    | SeeDone(c: nat)
    | SeeCancel(c: nat)
    | Receive(c: nat, frame: Frame)
    | Create(c: nat, fails: bool)
    | Move(c: nat, fails: bool)
    | Close(c: nat)
    | PeerGone(c: nat)

  // ------------------------------------------------------------------ the log

  /** Up to `limit` subscribed events at or after a position, oldest first. */
  function After(log: seq<Event>, from: nat, limit: nat): seq<nat>
    decreases |log| - from
  {
    if from >= |log| || limit == 0 then []
    else if log[from].subscribed then [from] + After(log, from + 1, limit - 1)
    else After(log, from + 1, limit)
  }

  /** No subscribed event lies from one position up to another. */
  ghost predicate Gap(log: seq<Event>, lo: nat, hi: nat) {
    forall x :: lo <= x < hi && x < |log| ==> !log[x].subscribed
  }

  /** Where a batch stands before its event `i`: just past the one before, or where it was read from. */
  function Front(after: nat, events: seq<nat>, i: nat): nat {
    if i == 0 || i > |events| then after else events[i - 1] + 1
  }

  /** Event `i` of a batch is the next subscribed one where the batch stands. */
  ghost predicate NextEvent(log: seq<Event>, after: nat, events: seq<nat>, i: nat)
    requires i < |events|
  {
    after <= events[i] && Front(after, events, i) <= events[i] < |log| && log[events[i]].subscribed &&
    Gap(log, Front(after, events, i), events[i])
  }

  /** A batch takes every subscribed event in order, leaving none between. */
  ghost predicate Consecutive(log: seq<Event>, after: nat, events: seq<nat>) {
    forall i :: 0 <= i < |events| ==> NextEvent(log, after, events, i)
  }

  lemma {:induction false} AfterIsConsecutive(log: seq<Event>, from: nat, limit: nat)
    ensures Consecutive(log, from, After(log, from, limit))
    decreases |log| - from
  {
    if from < |log| && limit > 0 {
      var events := After(log, from, limit);
      if log[from].subscribed {
        var rest := After(log, from + 1, limit - 1);
        AfterIsConsecutive(log, from + 1, limit - 1);
        assert events == [from] + rest;
        forall i | 0 <= i < |events| ensures NextEvent(log, from, events, i) {
          if i > 0 {
            assert NextEvent(log, from + 1, rest, i - 1);
            assert Front(from, events, i) == Front(from + 1, rest, i - 1);
          }
        }
      } else {
        AfterIsConsecutive(log, from + 1, limit);
        forall i | 0 <= i < |events| ensures NextEvent(log, from, events, i) {
          assert NextEvent(log, from + 1, events, i);
        }
      }
    }
  }

  /** A batch is as long as it may be: short of the limit, it leaves no subscribed event behind it. */
  lemma {:induction false} AfterIsFull(log: seq<Event>, from: nat, limit: nat)
    ensures var events := After(log, from, limit);
            |events| <= limit && (|events| < limit ==> Gap(log, Front(from, events, |events|), |log|))
    decreases |log| - from
  {
    if from < |log| && limit > 0 {
      var events := After(log, from, limit);
      if log[from].subscribed {
        var rest := After(log, from + 1, limit - 1);
        AfterIsFull(log, from + 1, limit - 1);
        assert events == [from] + rest;
        assert Front(from, events, |events|) == Front(from + 1, rest, |rest|);
      } else {
        AfterIsFull(log, from + 1, limit);
        if events != [] { assert Front(from, events, |events|) == Front(from + 1, events, |events|); }
      }
    }
  }

  /** A batch read at or before a subscribed event opens no later than it. */
  lemma {:induction false} BatchOpensBy(log: seq<Event>, from: nat, limit: nat, e: nat)
    requires from <= e < |log| && log[e].subscribed && limit > 0
    ensures After(log, from, limit) != [] && After(log, from, limit)[0] <= e
    decreases |log| - from
  {
    if !log[from].subscribed {
      BatchOpensBy(log, from + 1, limit, e);
    }
  }

  // ------------------------------------------------------------------ steps

  predicate Has(y: Sys, c: nat) { c in y.conns }

  predicate Enabled(y: Sys, step: Step) {
    match step
    case Append(_) => true
    case Connect(c, _) => c !in y.conns
    case Load(c) => Has(y, c) && y.conns[c].deliver.Between?
    case ReadLog(c) => Has(y, c) && y.conns[c].deliver.Loaded?
    case GiveUp(c) => Has(y, c) && (y.conns[c].deliver.Loaded? || y.conns[c].deliver.Batch?)
    case Skip(c) => Has(y, c) && y.conns[c].deliver.Batch? && AtEvent(y, y.conns[c].deliver) &&
                    !y.log[y.conns[c].deliver.events[y.conns[c].deliver.i]].inScope
    case Send(c, run) =>
      && Has(y, c) && y.conns[c].deliver.Batch? && AtEvent(y, y.conns[c].deliver) &&
         y.log[y.conns[c].deliver.events[y.conns[c].deliver.i]].inScope
      && run !in y.runs
    case SendOk(c) => Has(y, c) && y.conns[c].deliver.Sending? && y.conns[c].deliver.run in y.runs
    case SendFail(c) => Has(y, c) && y.conns[c].deliver.Sending?
    case SeeDone(c) => Has(y, c) && y.conns[c].deliver.Waiting? && y.conns[c].deliver.run in y.runs &&
                       y.runs[y.conns[c].deliver.run].closes > 0
    case SeeCancel(c) => Has(y, c) && (y.conns[c].deliver.Waiting? || y.conns[c].deliver.Between?)
    case Receive(c, frame) => Has(y, c) && y.conns[c].reader.Reading? &&
                              (y.conns[c].active == Some(frame.run) ==> frame.run in y.runs)
    case Create(c, _) => Has(y, c) && y.conns[c].reader.Recording? && y.conns[c].reader.stage == ToCreate &&
                         y.conns[c].reader.run in y.runs
    case Move(c, _) => Has(y, c) && y.conns[c].reader.Recording? && y.conns[c].reader.stage == ToMove &&
                       y.conns[c].reader.run in y.runs
    case Close(c) => Has(y, c) && y.conns[c].reader.Recording? && y.conns[c].reader.stage == ToClose &&
                     y.conns[c].reader.run in y.runs
    case PeerGone(c) => Has(y, c) && y.conns[c].reader.Reading?
  }

  predicate AtEvent(y: Sys, d: Deliver)
    requires d.Batch?
  {
    d.i < |d.events| && d.events[d.i] < |y.log|
  }

  function SetConn(y: Sys, c: nat, k: Conn): Sys {
    y.(conns := y.conns[c := k])
  }

  function SetRun(y: Sys, r: nat, run: Run): Sys {
    y.(runs := y.runs[r := run])
  }

  /** One more event of the batch dealt with. */
  function Trailed(k: Conn, t: Option<nat>): Conn {
    k.(served := k.served.(trail := k.served.trail + [t]))
  }

  /** The next event of a batch, or the wait between batches after its last. */
  function Onward(after: nat, events: seq<nat>, i: nat): Deliver {
    if i + 1 < |events| then Batch(after, events, i + 1) else Between
  }

  /** A frame matching the active run; anything else is a protocol violation that changes nothing. */
  function Received(y: Sys, c: nat, frame: Frame): Sys
    requires Has(y, c) && (y.conns[c].active == Some(frame.run) ==> frame.run in y.runs)
  {
    var k := y.conns[c];
    if k.active != Some(frame.run) then y
    else
      var run := y.runs[frame.run].(delivered := true);
      match frame
      case Started(r) => SetRun(y, r, run)
      case Log(r, chunk) => SetRun(y, r, run.(logs := run.logs + [chunk]))
      case Finished(r, ok) =>
        SetConn(SetRun(y, r, run.(outcome := Some(if ok then Success else Failure))), c,
                k.(active := None, reader := Recording(r, if ok then Success else Failure, ToCreate, false)))
      case Crashed(r) =>
        SetConn(SetRun(y, r, run.(outcome := Some(Crash))), c,
                k.(active := None, reader := Recording(r, Crash, ToCreate, false)))
  }

  function Apply(y: Sys, step: Step): Sys
    requires Enabled(y, step)
  {
    match step
    case Append(e) => y.(log := y.log + [e])
    case Connect(c, delivers) =>
      SetConn(y, c, Conn(None, if delivers then Between else Ended, Reading, Served(y.cursor, [], [], |y.movers|)))
    case Load(c) => SetConn(y, c, y.conns[c].(deliver := Loaded(y.cursor), served :=
                            Served(y.cursor, [], [], |y.movers|)))
    case ReadLog(c) =>
      var after := y.conns[c].deliver.after;
      var events := After(y.log, after, y.limit);
      SetConn(y, c, y.conns[c].(deliver := if events == [] then Between else Batch(after, events, 0),
              served := y.conns[c].served.(events := events)))
    case GiveUp(c) => SetConn(y, c, y.conns[c].(deliver := Between))
    case Skip(c) =>
      var d := y.conns[c].deliver;
      SetConn(y, c, Trailed(y.conns[c], None).(deliver := Onward(d.after, d.events, d.i)))
      .(cursor := d.events[d.i] + 1, movers := y.movers + [c])
    case Send(c, r) =>
      var d := y.conns[c].deliver;
      SetConn(SetRun(y, r, Run(c, d.events[d.i], false, 0, false, false, 0, None, [])), c,
              Trailed(y.conns[c], Some(r)).(active := Some(r), deliver := Sending(d.after, d.events, d.i, r)))
    case SendOk(c) =>
      var d := y.conns[c].deliver;
      SetConn(SetRun(y, d.run, y.runs[d.run].(delivered := true)), c,
              y.conns[c].(deliver := Waiting(d.after, d.events, d.i, d.run)))
    case SendFail(c) => SetConn(y, c, y.conns[c].(active := None, deliver := Ended))
    case SeeDone(c) =>
      var d := y.conns[c].deliver;
      SetConn(y, c, y.conns[c].(deliver := Onward(d.after, d.events, d.i)))
    case SeeCancel(c) => SetConn(y, c, y.conns[c].(deliver := Ended))
    case Receive(c, frame) => Received(y, c, frame)
    case Create(c, fails) =>
      var k := y.conns[c];
      var run := y.runs[k.reader.run];
      var stage := if k.reader.outcome == Crash then ToClose else ToMove;
      var tried := run.(attempts := run.attempts + 1, reported := run.reported || !fails);
      SetConn(SetRun(y, k.reader.run, tried), c, k.(reader := k.reader.(stage := stage)))
    case Move(c, fails) =>
      var k := y.conns[c];
      var z := SetConn(y, c, k.(reader := k.reader.(stage := ToClose)));
      var run := y.runs[k.reader.run];
      if fails then z else SetRun(z, k.reader.run, run.(moved := true)).(cursor := run.event + 1, movers :=
      y.movers + [c])
    case Close(c) =>
      var k := y.conns[c];
      var run := y.runs[k.reader.run];
      SetConn(SetRun(y, k.reader.run, run.(closes := run.closes + 1)), c,
              k.(reader := if k.reader.final then Closed else Reading))
    case PeerGone(c) =>
      var k := y.conns[c];
      if k.active.Some? then
        var z := SetConn(y, c, k.(active := None, reader := Recording(k.active.value, Crash, ToCreate, true)));
        if k.active.value in y.runs then SetRun(z, k.active.value, y.runs[k.active.value].(outcome := Some(Crash)))
        else z
      else SetConn(y, c, k.(reader := Closed))
  }

  /** A new automation's cursor stands at the newest event; no connection yet. */
  predicate Init(y: Sys) {
    y.cursor == y.start <= |y.log| && y.runs == map[] && y.conns == map[] && y.movers == []
  }

  // ------------------------------------------------------------------ the invariant

  /** The event was delivered, and its run ended in an attempt to persist a report. */
  ghost predicate Recorded(runs: map<nat, Run>, e: nat) {
    exists r :: r in runs && runs[r].event == e && runs[r].delivered && runs[r].attempts > 0
  }

  /** Every subscribed in-scope event from the start up to a position was delivered and recorded. */
  ghost predicate Covered(log: seq<Event>, start: nat, runs: map<nat, Run>, upTo: nat) {
    forall e :: start <= e < upTo && e < |log| && log[e].subscribed && log[e].inScope ==> Recorded(runs, e)
  }

  ghost predicate BatchInv(y: Sys, after: nat, events: seq<nat>, i: nat) {
    && i < |events| && y.start <= after && Consecutive(y.log, after, events) &&
       Covered(y.log, y.start, y.runs, Front(after, events, i))
  }

  function InHand(d: Deliver): Option<nat> {
    match d case Sending(_, _, _, r) => Some(r) case Waiting(_, _, _, r) => Some(r) case _ => None
  }

  ghost predicate ConnInv(y: Sys, c: nat)
    requires c in y.conns
  {
    var k := y.conns[c];
    var d := k.deliver;
    && (d.Loaded? ==> y.start <= d.after <= |y.log| && Covered(y.log, y.start, y.runs, d.after))
    && (d.Batch? || d.Sending? || d.Waiting? ==> BatchInv(y, d.after, d.events, d.i))
    && (InHand(d).Some? ==>
          InHand(d).value in y.runs && y.runs[InHand(d).value].conn == c &&
          y.runs[InHand(d).value].event == d.events[d.i])
    && (d.Waiting? ==> y.runs[d.run].delivered)
    && (k.active.Some? ==> k.active.value in y.runs && y.runs[k.active.value].conn == c && !k.reader.Recording?)
    && (k.active.Some? && InHand(d).Some? ==> k.active == InHand(d))
    && (d.Between? || d.Loaded? || d.Batch? ==> k.active.None? && !k.reader.Recording?)
    && (k.reader.Recording? ==>
          k.reader.run in y.runs && y.runs[k.reader.run].conn == c &&
          y.runs[k.reader.run].outcome == Some(k.reader.outcome)
          && (k.reader.stage == ToMove ==> k.reader.outcome != Crash)
          && (k.reader.outcome != Crash ==> y.runs[k.reader.run].delivered))
    && (k.reader.Recording? && InHand(d).Some? ==> InHand(d) == Some(k.reader.run))
  }

  ghost predicate RunInv(y: Sys, r: nat)
    requires r in y.runs
  {
    var run := y.runs[r];
    && run.conn in y.conns
    && y.start <= run.event < |y.log| && Covered(y.log, y.start, y.runs, run.event)
    && run.closes <= run.attempts <= 1
    && (run.attempts == 0 ==> !run.reported)
    && var k := y.conns[run.conn];
    && (k.active == Some(r) ==> run.attempts == 0 && run.outcome.None?)
    && (k.reader.Recording? && k.reader.run == r ==>
          run.closes == 0 &&
          (run.attempts == 0 <==> k.reader.stage == ToCreate))
    && (k.active != Some(r) && !(k.reader.Recording? && k.reader.run == r) ==> run.closes == run.attempts)
    && (k.deliver.Between? || k.deliver.Loaded? || k.deliver.Batch? ==> run.closes == 1)
    && (InHand(k.deliver).Some? && InHand(k.deliver).value != r ==> run.closes == 1)
    && (InHand(k.deliver) == Some(r) && k.active != Some(r) && !(k.reader.Recording? && k.reader.run == r) ==>
          run.closes == 1)
  }

  ghost predicate Inv(y: Sys) {
    && y.start <= y.cursor <= |y.log|
    && Covered(y.log, y.start, y.runs, y.cursor)
    && (forall c :: c in y.conns ==> ConnInv(y, c))
    && (forall r :: r in y.runs ==> RunInv(y, r))
  }

  // ------------------------------------------------------------------ every step keeps it

  /** Runs only grow: none is forgotten, none loses its delivery or its report. */
  ghost predicate Grew(runs: map<nat, Run>, more: map<nat, Run>) {
    forall r :: r in runs ==>
                  r in more && more[r].event == runs[r].event &&
                  (runs[r].delivered ==> more[r].delivered) && runs[r].attempts <= more[r].attempts
  }

  lemma CoveredStays(y: Sys, z: Sys, upTo: nat)
    requires Covered(y.log, y.start, y.runs, upTo) && upTo <= |y.log| && z.start == y.start && Grew(y.runs, z.runs)
    requires |y.log| <= |z.log| && z.log[..|y.log|] == y.log
    ensures Covered(z.log, z.start, z.runs, upTo)
  {
    forall e | z.start <= e < upTo && e < |z.log| && z.log[e].subscribed && z.log[e].inScope
      ensures Recorded(z.runs, e) {
      assert y.log[e] == z.log[..|y.log|][e];
      assert Recorded(y.runs, e);
      var r :| r in y.runs && y.runs[r].event == e && y.runs[r].delivered && y.runs[r].attempts > 0;
      assert r in z.runs && z.runs[r].event == e;
    }
  }

  lemma BatchStays(y: Sys, z: Sys, after: nat, events: seq<nat>, i: nat)
    requires BatchInv(y, after, events, i) && z.start == y.start && Grew(y.runs, z.runs)
    requires |y.log| <= |z.log| && z.log[..|y.log|] == y.log
    ensures BatchInv(z, after, events, i)
  {
    forall j | 0 <= j < |events| ensures NextEvent(z.log, after, events, j) {
      assert NextEvent(y.log, after, events, j);
      assert forall x :: 0 <= x < |y.log| ==> z.log[x] == y.log[x] by {
        forall x | 0 <= x < |y.log| ensures z.log[x] == y.log[x] { assert z.log[..|y.log|][x] == y.log[x]; }
      }
    }
    assert NextEvent(y.log, after, events, i);
    CoveredStays(y, z, Front(after, events, i));
  }

  /** A connection a step leaves alone keeps its invariant as the log and the runs grow. */
  lemma ConnStays(y: Sys, z: Sys, c: nat)
    requires c in y.conns && c in z.conns && z.conns[c] == y.conns[c] && ConnInv(y, c)
    requires z.start == y.start && |y.log| <= |z.log| && z.log[..|y.log|] == y.log && Grew(y.runs, z.runs)
    requires forall r :: r in y.runs && y.runs[r].conn == c ==> z.runs[r] == y.runs[r]
    ensures ConnInv(z, c)
  {
    var d := y.conns[c].deliver;
    if d.Loaded? { CoveredStays(y, z, d.after); }
    if d.Batch? || d.Sending? || d.Waiting? { BatchStays(y, z, d.after, d.events, d.i); }
  }

  /** A run of a connection a step leaves alone keeps its invariant. */
  lemma RunStays(y: Sys, z: Sys, r: nat)
    requires r in y.runs && r in z.runs && z.runs[r] == y.runs[r] && RunInv(y, r)
    requires y.runs[r].conn in z.conns && z.conns[y.runs[r].conn] == y.conns[y.runs[r].conn]
    requires z.start == y.start && |y.log| <= |z.log| && z.log[..|y.log|] == y.log && Grew(y.runs, z.runs)
    ensures RunInv(z, r)
  {
    CoveredStays(y, z, y.runs[r].event);
  }

  /** A step of one connection: the log and the others stand still. */
  ghost predicate OwnStep(y: Sys, z: Sys, c: nat) {
    && z.start == y.start && z.log == y.log && z.limit == y.limit
    && c in z.conns && z.conns.Keys == y.conns.Keys + {c}
    && (forall k :: k in y.conns && k != c ==> z.conns[k] == y.conns[k])
    && Grew(y.runs, z.runs)
    && (forall r :: r in y.runs ==> z.runs[r].conn == y.runs[r].conn)
    && (forall r :: r in y.runs && y.runs[r].conn != c ==> z.runs[r] == y.runs[r])
    && (forall r :: r in z.runs && r !in y.runs ==> z.runs[r].conn == c)
  }

  /** What is left to show of a connection's own step: itself, its runs and the cursor. */
  lemma OwnStepKeeps(y: Sys, z: Sys, c: nat)
    requires Inv(y) && OwnStep(y, z, c)
    requires ConnInv(z, c)
    requires forall r :: r in z.runs && z.runs[r].conn == c ==> RunInv(z, r)
    requires z.cursor == y.cursor || (z.start <= z.cursor <= |z.log| && Covered(z.log, z.start, z.runs, z.cursor))
    ensures Inv(z)
  {
    assert z.log[..|y.log|] == y.log;
    if z.cursor == y.cursor { CoveredStays(y, z, y.cursor); }
    forall k | k in z.conns ensures ConnInv(z, k) {
      if k != c { ConnStays(y, z, k); }
    }
    forall r | r in z.runs ensures RunInv(z, r) {
      if z.runs[r].conn != c { RunStays(y, z, r); }
    }
  }

  lemma AppendKeeps(y: Sys, e: Event)
    requires Inv(y)
    ensures Inv(Apply(y, Append(e)))
  {
    var z := Apply(y, Append(e));
    assert z.log[..|y.log|] == y.log;
    CoveredStays(y, z, y.cursor);
    forall c | c in z.conns ensures ConnInv(z, c) { ConnStays(y, z, c); }
    forall r | r in z.runs ensures RunInv(z, r) { RunStays(y, z, r); }
  }

  lemma ConnectKeeps(y: Sys, c: nat, delivers: bool)
    requires Inv(y) && Enabled(y, Connect(c, delivers))
    ensures Inv(Apply(y, Connect(c, delivers)))
  {
    var z := Apply(y, Connect(c, delivers));
    forall r | r in y.runs ensures y.runs[r].conn != c { assert RunInv(y, r); }
    OwnStepKeeps(y, z, c);
  }

  /** The runs of a connection whose run table a step leaves alone. */
  lemma OwnRunsStay(y: Sys, z: Sys, c: nat)
    requires Inv(y) && OwnStep(y, z, c) && c in y.conns && z.runs == y.runs
    requires z.conns[c].active == y.conns[c].active && z.conns[c].reader == y.conns[c].reader
    requires InHand(z.conns[c].deliver) == InHand(y.conns[c].deliver) || z.conns[c].deliver.Ended?
             || forall r :: r in y.runs && y.runs[r].conn == c ==> y.runs[r].closes == 1
    requires z.conns[c].deliver.Between? || z.conns[c].deliver.Loaded? || z.conns[c].deliver.Batch? ==>
               forall r :: r in y.runs && y.runs[r].conn == c ==> y.runs[r].closes == 1
    ensures forall r :: r in z.runs && z.runs[r].conn == c ==> RunInv(z, r)
  {
    forall r | r in z.runs && z.runs[r].conn == c ensures RunInv(z, r) {
      assert RunInv(y, r);
      assert z.log[..|y.log|] == y.log;
      CoveredStays(y, z, y.runs[r].event);
    }
  }

  lemma IdleRunsClosed(y: Sys, c: nat)
    requires Inv(y) && c in y.conns
    requires var d := y.conns[c].deliver; d.Between? || d.Loaded? || d.Batch?
    ensures forall r :: r in y.runs && y.runs[r].conn == c ==> y.runs[r].closes == 1
  {
    forall r | r in y.runs && y.runs[r].conn == c ensures y.runs[r].closes == 1 { assert RunInv(y, r); }
  }

  lemma LoadKeeps(y: Sys, c: nat)
    requires Inv(y) && Enabled(y, Load(c))
    ensures Inv(Apply(y, Load(c)))
  {
    var z := Apply(y, Load(c));
    IdleRunsClosed(y, c);
    OwnRunsStay(y, z, c);
    assert ConnInv(y, c);
    OwnStepKeeps(y, z, c);
  }

  lemma ReadLogKeeps(y: Sys, c: nat)
    requires Inv(y) && Enabled(y, ReadLog(c))
    ensures Inv(Apply(y, ReadLog(c)))
  {
    var z := Apply(y, ReadLog(c));
    assert ConnInv(y, c);
    IdleRunsClosed(y, c);
    AfterIsConsecutive(y.log, y.conns[c].deliver.after, y.limit);
    OwnRunsStay(y, z, c);
    OwnStepKeeps(y, z, c);
  }

  lemma GiveUpKeeps(y: Sys, c: nat)
    requires Inv(y) && Enabled(y, GiveUp(c))
    ensures Inv(Apply(y, GiveUp(c)))
  {
    var z := Apply(y, GiveUp(c));
    assert ConnInv(y, c);
    IdleRunsClosed(y, c);
    OwnRunsStay(y, z, c);
    OwnStepKeeps(y, z, c);
  }

  /** Past an event that is out of scope, or recorded, everything up to it is covered. */
  lemma FrontMoves(y: Sys, after: nat, events: seq<nat>, i: nat)
    requires BatchInv(y, after, events, i)
    requires events[i] < |y.log| && (!y.log[events[i]].inScope || Recorded(y.runs, events[i]))
    ensures Covered(y.log, y.start, y.runs, events[i] + 1)
  {
    assert NextEvent(y.log, after, events, i);
  }

  lemma SkipKeeps(y: Sys, c: nat)
    requires Inv(y) && Enabled(y, Skip(c))
    ensures Inv(Apply(y, Skip(c)))
  {
    var z := Apply(y, Skip(c));
    assert ConnInv(y, c);
    var d := y.conns[c].deliver;
    IdleRunsClosed(y, c);
    assert NextEvent(y.log, d.after, d.events, d.i);
    FrontMoves(y, d.after, d.events, d.i);
    OwnRunsStay(y, z, c);
    OwnStepKeeps(y, z, c);
  }

  lemma SendKeeps(y: Sys, c: nat, r: nat)
    requires Inv(y) && Enabled(y, Send(c, r))
    ensures Inv(Apply(y, Send(c, r)))
  {
    var z := Apply(y, Send(c, r));
    assert ConnInv(y, c);
    var d := y.conns[c].deliver;
    IdleRunsClosed(y, c);
    assert NextEvent(y.log, d.after, d.events, d.i);
    assert z.log[..|y.log|] == y.log;
    assert Grew(y.runs, z.runs);
    BatchStays(y, z, d.after, d.events, d.i);
    forall q | q in z.runs && z.runs[q].conn == c ensures RunInv(z, q) {
      if q != r {
        assert RunInv(y, q);
        CoveredStays(y, z, y.runs[q].event);
      } else {
        assert Covered(z.log, z.start, z.runs, d.events[d.i]);
      }
    }
    OwnStepKeeps(y, z, c);
  }

  lemma SendOkKeeps(y: Sys, c: nat)
    requires Inv(y) && Enabled(y, SendOk(c))
    ensures Inv(Apply(y, SendOk(c)))
  {
    var z := Apply(y, SendOk(c));
    assert ConnInv(y, c);
    var d := y.conns[c].deliver;
    assert z.log[..|y.log|] == y.log;
    BatchStays(y, z, d.after, d.events, d.i);
    SendOkKeepsRuns(y, c);
    OwnStepKeeps(y, z, c);
  }

  lemma SendOkKeepsRuns(y: Sys, c: nat)
    requires Inv(y) && Enabled(y, SendOk(c))
    ensures var z := Apply(y, SendOk(c)); forall q :: q in z.runs && z.runs[q].conn == c ==> RunInv(z, q)
  {
    var z := Apply(y, SendOk(c));
    assert z.log[..|y.log|] == y.log;
    forall q | q in z.runs && z.runs[q].conn == c ensures RunInv(z, q) {
      assert RunInv(y, q);
      CoveredStays(y, z, y.runs[q].event);
    }
  }

  lemma SendFailKeeps(y: Sys, c: nat)
    requires Inv(y) && Enabled(y, SendFail(c))
    ensures Inv(Apply(y, SendFail(c)))
  {
    var z := Apply(y, SendFail(c));
    assert ConnInv(y, c);
    forall q | q in z.runs && z.runs[q].conn == c ensures RunInv(z, q) { assert RunInv(y, q); }
    OwnStepKeeps(y, z, c);
  }

  lemma SeeDoneKeeps(y: Sys, c: nat)
    requires Inv(y) && Enabled(y, SeeDone(c))
    ensures Inv(Apply(y, SeeDone(c)))
  {
    var z := Apply(y, SeeDone(c));
    assert ConnInv(y, c);
    var d := y.conns[c].deliver;
    assert RunInv(y, d.run);
    forall q | q in y.runs && y.runs[q].conn == c ensures y.runs[q].closes == 1 { assert RunInv(y, q); }
    assert Recorded(y.runs, d.events[d.i]);
    assert NextEvent(y.log, d.after, d.events, d.i);
    FrontMoves(y, d.after, d.events, d.i);
    OwnRunsStay(y, z, c);
    OwnStepKeeps(y, z, c);
  }

  lemma SeeCancelKeeps(y: Sys, c: nat)
    requires Inv(y) && Enabled(y, SeeCancel(c))
    ensures Inv(Apply(y, SeeCancel(c)))
  {
    var z := Apply(y, SeeCancel(c));
    assert ConnInv(y, c);
    forall q | q in z.runs && z.runs[q].conn == c ensures RunInv(z, q) { assert RunInv(y, q); }
    OwnStepKeeps(y, z, c);
  }

  /** A change to one run of a connection and to what its loops hold, its batch standing still. */
  lemma RunChanged(y: Sys, z: Sys, c: nat, r: nat)
    requires Inv(y) && OwnStep(y, z, c) && c in y.conns && r in y.runs && y.runs[r].conn == c
    requires z.runs == y.runs[r := z.runs[r]] && z.conns[c].deliver == y.conns[c].deliver
    ensures
      forall q :: q in z.runs ==>
                    Covered(z.log, z.start, z.runs, z.runs[q].event) &&
                    z.start <= z.runs[q].event < |z.log|
    ensures var d := z.conns[c].deliver;
            && (d.Loaded? ==> z.start <= d.after <= |z.log| && Covered(z.log, z.start, z.runs, d.after))
            && (d.Batch? || d.Sending? || d.Waiting? ==> BatchInv(z, d.after, d.events, d.i))
  {
    assert z.log[..|y.log|] == y.log;
    assert ConnInv(y, c);
    forall q | q in z.runs ensures Covered(z.log, z.start, z.runs, z.runs[q].event) &&
                                   z.start <= z.runs[q].event < |z.log| {
      assert RunInv(y, q);
      CoveredStays(y, z, y.runs[q].event);
    }
    var d := y.conns[c].deliver;
    if d.Loaded? { CoveredStays(y, z, d.after); }
    if d.Batch? || d.Sending? || d.Waiting? { BatchStays(y, z, d.after, d.events, d.i); }
  }

  lemma ReceiveKeeps(y: Sys, c: nat, frame: Frame)
    requires Inv(y) && Enabled(y, Receive(c, frame))
    ensures Inv(Apply(y, Receive(c, frame)))
  {
    if y.conns[c].active == Some(frame.run) {
      if frame.Started? || frame.Log? {
        ProgressKeeps(y, c, frame);
      } else {
        ReportKeeps(y, c, frame);
      }
    }
  }

  lemma ProgressKeeps(y: Sys, c: nat, frame: Frame)
    requires Inv(y) && Enabled(y, Receive(c, frame)) && y.conns[c].active == Some(frame.run)
    requires frame.Started? || frame.Log?
    ensures Inv(Apply(y, Receive(c, frame)))
  {
    var logs := if frame.Log? then y.runs[frame.run].logs + [frame.chunk] else y.runs[frame.run].logs;
    LoggedKeeps(y, c, frame.run, logs, Apply(y, Receive(c, frame)));
  }

  /** A frame marks the active run delivered, and may add to its log. */
  lemma LoggedKeeps(y: Sys, c: nat, r: nat, logs: seq<nat>, z: Sys)
    requires Inv(y) && c in y.conns && y.conns[c].active == Some(r) && r in y.runs
    requires z == SetRun(y, r, y.runs[r].(delivered := true, logs := logs))
    ensures Inv(z)
  {
    assert ConnInv(y, c);
    RunChanged(y, z, c, r);
    forall q | q in z.runs && z.runs[q].conn == c ensures RunInv(z, q) { assert RunInv(y, q); }
    OwnStepKeeps(y, z, c);
  }

  lemma ReportKeeps(y: Sys, c: nat, frame: Frame)
    requires Inv(y) && Enabled(y, Receive(c, frame)) && y.conns[c].active == Some(frame.run)
    requires frame.Finished? || frame.Crashed?
    ensures Inv(Apply(y, Receive(c, frame)))
  {
    var outcome := if frame.Crashed? then Crash else if frame.ok then Success else Failure;
    ReportedKeeps(y, c, frame.run, outcome, Apply(y, Receive(c, frame)));
  }

  /** A report detaches the active run, to be recorded. */
  lemma ReportedKeeps(y: Sys, c: nat, r: nat, outcome: Outcome, z: Sys)
    requires Inv(y) && c in y.conns && y.conns[c].active == Some(r) && r in y.runs
    requires z == SetConn(SetRun(y, r, y.runs[r].(delivered := true, outcome := Some(outcome))), c,
                          y.conns[c].(active := None, reader := Recording(r, outcome, ToCreate, false)))
    ensures Inv(z)
  {
    assert ConnInv(y, c);
    RunChanged(y, z, c, r);
    forall q | q in z.runs && z.runs[q].conn == c ensures RunInv(z, q) { assert RunInv(y, q); }
    OwnStepKeeps(y, z, c);
  }

  lemma CreateKeeps(y: Sys, c: nat, fails: bool)
    requires Inv(y) && Enabled(y, Create(c, fails))
    ensures Inv(Apply(y, Create(c, fails)))
  {
    var z := Apply(y, Create(c, fails));
    assert ConnInv(y, c);
    var r := y.conns[c].reader.run;
    assert RunInv(y, r);
    RunChanged(y, z, c, r);
    forall q | q in z.runs && z.runs[q].conn == c ensures RunInv(z, q) { assert RunInv(y, q); }
    OwnStepKeeps(y, z, c);
  }

  lemma MoveKeeps(y: Sys, c: nat, fails: bool)
    requires Inv(y) && Enabled(y, Move(c, fails))
    ensures Inv(Apply(y, Move(c, fails)))
  {
    if fails {
      MoveFailsKeeps(y, c);
    } else {
      MovedKeeps(y, c);
    }
  }

  lemma MoveFailsKeeps(y: Sys, c: nat)
    requires Inv(y) && Enabled(y, Move(c, true))
    ensures Inv(Apply(y, Move(c, true)))
  {
    var z := Apply(y, Move(c, true));
    assert ConnInv(y, c);
    RunChanged(y, z, c, y.conns[c].reader.run);
    forall q | q in z.runs && z.runs[q].conn == c ensures RunInv(z, q) { assert RunInv(y, q); }
    OwnStepKeeps(y, z, c);
  }

  lemma MovedKeeps(y: Sys, c: nat)
    requires Inv(y) && Enabled(y, Move(c, false))
    ensures Inv(Apply(y, Move(c, false)))
  {
    var z := Apply(y, Move(c, false));
    assert ConnInv(y, c);
    var r := y.conns[c].reader.run;
    assert RunInv(y, r);
    RunChanged(y, z, c, r);
    forall q | q in z.runs && z.runs[q].conn == c ensures RunInv(z, q) { assert RunInv(y, q); }
    assert Recorded(z.runs, z.runs[r].event);
    OwnStepKeeps(y, z, c);
  }

  lemma CloseKeeps(y: Sys, c: nat)
    requires Inv(y) && Enabled(y, Close(c))
    ensures Inv(Apply(y, Close(c)))
  {
    var z := Apply(y, Close(c));
    assert ConnInv(y, c);
    var r := y.conns[c].reader.run;
    assert RunInv(y, r);
    RunChanged(y, z, c, r);
    forall q | q in z.runs && z.runs[q].conn == c ensures RunInv(z, q) { assert RunInv(y, q); }
    OwnStepKeeps(y, z, c);
  }

  lemma PeerGoneKeepsActive(y: Sys, c: nat)
    requires Inv(y) && Enabled(y, PeerGone(c)) && y.conns[c].active.Some?
    ensures Inv(Apply(y, PeerGone(c)))
  {
    var z := Apply(y, PeerGone(c));
    assert ConnInv(y, c);
    assert RunInv(y, y.conns[c].active.value);
    RunChanged(y, z, c, y.conns[c].active.value);
    forall q | q in z.runs && z.runs[q].conn == c ensures RunInv(z, q) { assert RunInv(y, q); }
    OwnStepKeeps(y, z, c);
  }

  lemma PeerGoneKeeps(y: Sys, c: nat)
    requires Inv(y) && Enabled(y, PeerGone(c))
    ensures Inv(Apply(y, PeerGone(c)))
  {
    var z := Apply(y, PeerGone(c));
    assert ConnInv(y, c);
    if y.conns[c].active.Some? {
      PeerGoneKeepsActive(y, c);
    } else {
      forall q | q in z.runs && z.runs[q].conn == c ensures RunInv(z, q) { assert RunInv(y, q); }
      OwnStepKeeps(y, z, c);
    }
  }

  lemma StepKeepsInv(y: Sys, step: Step)
    requires Inv(y) && Enabled(y, step)
    ensures Inv(Apply(y, step))
  {
    match step
    case Append(e) => AppendKeeps(y, e);
    case Connect(c, delivers) => ConnectKeeps(y, c, delivers);
    case Load(c) => LoadKeeps(y, c);
    case ReadLog(c) => ReadLogKeeps(y, c);
    case GiveUp(c) => GiveUpKeeps(y, c);
    case Skip(c) => SkipKeeps(y, c);
    case Send(c, r) => SendKeeps(y, c, r);
    case SendOk(c) => SendOkKeeps(y, c);
    case SendFail(c) => SendFailKeeps(y, c);
    case SeeDone(c) => SeeDoneKeeps(y, c);
    case SeeCancel(c) => SeeCancelKeeps(y, c);
    case Receive(c, frame) => ReceiveKeeps(y, c, frame);
    case Create(c, fails) => CreateKeeps(y, c, fails);
    case Move(c, fails) => MoveKeeps(y, c, fails);
    case Close(c) => CloseKeeps(y, c);
    case PeerGone(c) => PeerGoneKeeps(y, c);
  }

  // ------------------------------------------------------------------ the theorems

  ghost predicate IsRun(states: seq<Sys>, steps: seq<Step>) {
    && |states| == |steps| + 1
    && Init(states[0])
    && forall i {:trigger steps[i]} :: 0 <= i < |steps| ==>
                                         Enabled(states[i], steps[i]) && states[i + 1] == Apply(states[i], steps[i])
  }

  lemma {:induction false} RunKeepsInv(states: seq<Sys>, steps: seq<Step>, n: nat)
    requires IsRun(states, steps) && n < |states|
    ensures Inv(states[n])
  {
    if n > 0 {
      RunKeepsInv(states, steps, n - 1);
      StepKeepsInv(states[n - 1], steps[n - 1]);
    }
  }

  /** A run that delivered the event has a persisted report. */
  ghost predicate Reported(runs: map<nat, Run>, e: nat) {
    exists r :: r in runs && runs[r].event == e && runs[r].delivered && runs[r].reported
  }

  /** The step persists the report of a run. */
  predicate Persists(y: Sys, step: Step, r: nat) {
    && step.Create? && !step.fails && step.c in y.conns
    && y.conns[step.c].reader.Recording? && y.conns[step.c].reader.run == r
  }

  lemma StepReports(y: Sys, step: Step, r: nat)
    requires Inv(y) && Enabled(y, step)
    ensures var z := Apply(y, step);
            && (r in y.runs ==> r in z.runs && (z.runs[r].reported <==> y.runs[r].reported || Persists(y, step, r)))
            && (r !in y.runs && r in z.runs ==> !z.runs[r].reported)
            && (r !in y.runs ==> !Persists(y, step, r))
  {
    if step.Receive? {
      FrameReports(y, step.c, step.frame, r);
    } else if step.Create? {
      CreateReports(y, step.c, step.fails, r);
    } else if !step.Append? && step.c in y.conns {
      assert ConnInv(y, step.c);
    }
  }

  lemma CreateReports(y: Sys, c: nat, fails: bool, r: nat)
    requires Enabled(y, Create(c, fails))
    ensures var z := Apply(y, Create(c, fails));
            && z.runs.Keys == y.runs.Keys
            && (r in y.runs ==> (z.runs[r].reported <==> y.runs[r].reported || Persists(y, Create(c, fails), r)))
            && (r !in y.runs ==> !Persists(y, Create(c, fails), r))
  {
  }

  lemma FrameReports(y: Sys, c: nat, frame: Frame, r: nat)
    requires Enabled(y, Receive(c, frame))
    ensures var z := Apply(y, Receive(c, frame));
            z.runs.Keys == y.runs.Keys && (r in y.runs ==> z.runs[r].reported == y.runs[r].reported)
  {
  }

  /** A run has a report exactly when one of the steps so far persisted it. */
  lemma {:induction false} ReportedExactlyWhenPersisted(states: seq<Sys>, steps: seq<Step>, n: nat, r: nat)
    requires IsRun(states, steps) && n < |states|
    ensures r in states[n].runs && states[n].runs[r].reported <==> SomePersists(states, steps, n, r)
  {
    if n > 0 {
      ReportedExactlyWhenPersisted(states, steps, n - 1, r);
      RunKeepsInv(states, steps, n - 1);
      var y, step := states[n - 1], steps[n - 1];
      assert Enabled(y, step) && states[n] == Apply(y, step);
      StepReports(y, step, r);
      PersistedByTheLast(states, steps, n, r);
    }
  }

  /** One of the first `n` steps persists the report of a run. */
  ghost predicate SomePersists(states: seq<Sys>, steps: seq<Step>, n: nat, r: nat)
    requires n <= |steps| && n < |states|
  {
    exists i :: 0 <= i < n && Persists(states[i], steps[i], r)
  }

  lemma PersistedByTheLast(states: seq<Sys>, steps: seq<Step>, n: nat, r: nat)
    requires 0 < n <= |steps| && n < |states|
    ensures SomePersists(states, steps, n, r) <==>
            Persists(states[n - 1], steps[n - 1], r) || SomePersists(states, steps, n - 1, r)
  {
  }

  /**
   Delivery cursor safety: over any run, every subscribed in-scope event from the starting cursor to the current one was
   delivered and its run, finished or crashed, was recorded; and an event has a report exactly when a step persisted one
   of a run that delivered it.
   */
  lemma CursorSafety(states: seq<Sys>, steps: seq<Step>, n: nat, e: nat)
    requires IsRun(states, steps) && n < |states|
    ensures var y := states[n];
            y.start <= e < y.cursor && e < |y.log| && y.log[e].subscribed && y.log[e].inScope ==> Recorded(y.runs, e)
    ensures Reported(states[n].runs, e) <==>
            exists i, r :: && 0 <= i < n && Persists(states[i], steps[i], r)
                           && r in states[n].runs && states[n].runs[r].event == e && states[n].runs[r].delivered
  {
    RunKeepsInv(states, steps, n);
    var y := states[n];
    if Reported(y.runs, e) {
      var r :| r in y.runs && y.runs[r].event == e && y.runs[r].delivered && y.runs[r].reported;
      ReportedExactlyWhenPersisted(states, steps, n, r);
    }
    if i, r :| && 0 <= i < n && Persists(states[i], steps[i], r)
               && r in y.runs && y.runs[r].event == e && y.runs[r].delivered {
      ReportedExactlyWhenPersisted(states, steps, n, r);
    }
  }

  /**
   Run bookkeeping under races: every run is recorded at most once and its done channel closed at most once, only
   after; and a connection sends its next event only when none of its runs is active or unrecorded.
   */
  lemma RunsAreResolvedOnce(states: seq<Sys>, steps: seq<Step>, n: nat, r: nat)
    requires IsRun(states, steps) && n < |states| && r in states[n].runs
    ensures var run := states[n].runs[r];
            && run.closes <= run.attempts <= 1
            && run.conn in states[n].conns
            && forall q :: Enabled(states[n], Send(run.conn, q)) ==>
                             states[n].conns[run.conn].active.None? &&
                             run.attempts == 1 && run.closes == 1
  {
    RunKeepsInv(states, steps, n);
    assert RunInv(states[n], r);
    assert ConnInv(states[n], states[n].runs[r].conn);
  }

  /** The chunks of the log frames that came for a run while it was its connection's active one, in order. */
  function Logged(states: seq<Sys>, steps: seq<Step>, n: nat, r: nat): seq<nat>
    requires n <= |steps| && n < |states|
  {
    if n == 0 then []
    else
      var before := Logged(states, steps, n - 1, r);
      match steps[n - 1]
      case Receive(c, Log(q, chunk)) =>
        if q == r && c in states[n - 1].conns && states[n - 1].conns[c].active == Some(r) then before + [chunk]
        else before
      case _ => before
  }

  lemma StepLogs(y: Sys, step: Step, r: nat)
    requires Inv(y) && Enabled(y, step)
    ensures var z := Apply(y, step);
            && (r in y.runs ==> r in z.runs)
            && (r in y.runs && !LogsTo(y, step, r) ==> z.runs[r].logs == y.runs[r].logs)
            && (r !in y.runs && r in z.runs ==> z.runs[r].logs == [])
  {
    if step.Receive? {
      FrameLogs(y, step.c, step.frame, r);
    } else if !step.Append? && step.c in y.conns {
      assert ConnInv(y, step.c);
    }
  }

  /** A log frame for the run, while it is the active one. */
  predicate LogsTo(y: Sys, step: Step, r: nat) {
    step.Receive? && step.frame.Log? && step.frame.run == r && step.c in y.conns && y.conns[step.c].active == Some(r)
  }

  lemma FrameLogs(y: Sys, c: nat, frame: Frame, r: nat)
    requires Enabled(y, Receive(c, frame))
    ensures var z := Apply(y, Receive(c, frame));
            && z.runs.Keys == y.runs.Keys
            && (r in y.runs && !LogsTo(y, Receive(c, frame), r) ==> z.runs[r].logs == y.runs[r].logs)
  {
  }

  /**
   Frames reach the active run alone: over any run of the system, a run's log is exactly the chunks sent for it while
   it was active, whatever frames came for other ids or after it ended.
   */
  lemma {:induction false} LogsAreItsFrames(states: seq<Sys>, steps: seq<Step>, n: nat, r: nat)
    requires IsRun(states, steps) && n < |states|
    ensures if r in states[n].runs then states[n].runs[r].logs == Logged(states, steps, n, r)
            else Logged(states, steps, n, r) == []
  {
    if n > 0 {
      LogsAreItsFrames(states, steps, n - 1, r);
      RunKeepsInv(states, steps, n - 1);
      StepLogs(states[n - 1], steps[n - 1], r);
    }
  }

  lemma ClosedRunStays(y: Sys, step: Step, r: nat)
    requires Inv(y) && Enabled(y, step) && r in y.runs && y.runs[r].closes == 1
    ensures var z := Apply(y, step); r in z.runs && z.runs[r] == y.runs[r].(delivered := z.runs[r].delivered)
  {
    assert RunInv(y, r);
    if !step.Append? && step.c in y.conns { assert ConnInv(y, step.c); }
  }

  /**
   Once its done channel is closed nothing about a run changes any more, but for the send that may only then return.
   */
  lemma {:induction false} ClosedRunsAreFinal(states: seq<Sys>, steps: seq<Step>, n: nat, m: nat, r: nat)
    requires IsRun(states, steps) && n <= m < |states| && r in states[n].runs && states[n].runs[r].closes == 1
    ensures r in states[m].runs && states[m].runs[r] == states[n].runs[r].(delivered := states[m].runs[r].delivered)
    decreases m
  {
    if n < m {
      ClosedRunsAreFinal(states, steps, n, m - 1, r);
      RunKeepsInv(states, steps, m - 1);
      ClosedRunStays(states[m - 1], steps[m - 1], r);
    }
  }

  // ------------------------------------------------------------------ what was sent, and how it ended

  /** Every run's event is one subscribed to and in scope. */
  ghost predicate InScopeRuns(y: Sys) {
    forall r :: r in y.runs ==> InScopeRun(y, r)
  }

  ghost predicate InScopeRun(y: Sys, r: nat)
    requires r in y.runs
  {
    y.runs[r].event < |y.log| && y.log[y.runs[r].event].subscribed && y.log[y.runs[r].event].inScope
  }

  lemma StepKeepsInScope(y: Sys, step: Step, r: nat)
    requires Inv(y) && Enabled(y, step) && r in y.runs && InScopeRun(y, r)
    ensures r in Apply(y, step).runs && InScopeRun(Apply(y, step), r)
  {
    if step.Receive? {
      FrameKeepsEvents(y, step.c, step.frame);
    } else if !step.Append? && step.c in y.conns {
      assert ConnInv(y, step.c);
    }
  }

  lemma StepSendsInScope(y: Sys, step: Step, r: nat)
    requires Inv(y) && Enabled(y, step) && r !in y.runs && r in Apply(y, step).runs
    ensures InScopeRun(Apply(y, step), r)
  {
    if step.Receive? {
      FrameKeepsEvents(y, step.c, step.frame);
    } else if !step.Append? && step.c in y.conns {
      assert ConnInv(y, step.c);
      if step.Send? {
        var d := y.conns[step.c].deliver;
        assert NextEvent(y.log, d.after, d.events, d.i);
      }
    }
  }

  lemma FrameKeepsEvents(y: Sys, c: nat, frame: Frame)
    requires Enabled(y, Receive(c, frame))
    ensures var z := Apply(y, Receive(c, frame));
            z.log == y.log && z.runs.Keys == y.runs.Keys && forall r :: r in y.runs ==>
                                                                          z.runs[r].event == y.runs[r].event
  {
  }

  /** Over any run of the system nothing is sent but events subscribed to and in scope. */
  lemma {:induction false} OnlyInScopeIsSent(states: seq<Sys>, steps: seq<Step>, n: nat)
    requires IsRun(states, steps) && n < |states|
    ensures InScopeRuns(states[n])
  {
    if n > 0 {
      OnlyInScopeIsSent(states, steps, n - 1);
      RunKeepsInv(states, steps, n - 1);
      forall r | r in states[n].runs ensures InScopeRun(states[n], r) {
        if r in states[n - 1].runs {
          StepKeepsInScope(states[n - 1], steps[n - 1], r);
        } else {
          StepSendsInScope(states[n - 1], steps[n - 1], r);
        }
      }
    }
  }

  /** How the step ends a run, if it does: a terminal frame for it while it is active, or its peer going first. */
  function EndedBy(y: Sys, step: Step, r: nat): Option<Outcome> {
    match step
    case Receive(c, Finished(q, ok)) =>
      if q == r && c in y.conns && y.conns[c].active == Some(r) then Some(if ok then Success else Failure) else None
    case Receive(c, Crashed(q)) =>
      if q == r && c in y.conns && y.conns[c].active == Some(r) then Some(Crash) else None
    case PeerGone(c) => if c in y.conns && y.conns[c].active == Some(r) then Some(Crash) else None
    case _ => None
  }

  /** What ended the run among the first `n` steps. */
  function Ending(states: seq<Sys>, steps: seq<Step>, n: nat, r: nat): Option<Outcome>
    requires n <= |steps| && n < |states|
  {
    if n == 0 then None
    else
      var before := Ending(states, steps, n - 1, r);
      if before.Some? then before else EndedBy(states[n - 1], steps[n - 1], r)
  }

  /** What a run's record says of its end. */
  ghost predicate EndsAs(y: Sys, r: nat, ending: Option<Outcome>) {
    if r !in y.runs then ending.None?
    else
      && y.runs[r].outcome == ending
      && (y.runs[r].attempts > 0 ==> ending.Some?)
      && (y.runs[r].moved ==> ending == Some(Success) || ending == Some(Failure))
  }

  lemma FrameEnds(y: Sys, c: nat, frame: Frame, r: nat)
    requires Inv(y) && Enabled(y, Receive(c, frame)) && r in y.runs
    ensures var z, ending := Apply(y, Receive(c, frame)), EndedBy(y, Receive(c, frame), r);
            && r in z.runs && z.runs[r].attempts == y.runs[r].attempts && z.runs[r].moved == y.runs[r].moved
            && z.runs[r].outcome == (if ending.Some? then ending else y.runs[r].outcome)
            && (ending.Some? ==> y.runs[r].outcome.None?)
  {
    assert ConnInv(y, c);
    if y.conns[c].active.Some? { assert RunInv(y, y.conns[c].active.value); }
  }

  /** A step that ends no run, records none and moves no cursor leaves what is said of each run's end. */
  lemma RecordsStay(y: Sys, step: Step, r: nat)
    requires Inv(y) && Enabled(y, step)
    requires !step.Receive? && !step.Create? && !step.Move? && !step.PeerGone?
    ensures var z := Apply(y, step);
            if r in y.runs then
              r in z.runs && z.runs[r].attempts == y.runs[r].attempts && z.runs[r].moved == y.runs[r].moved &&
              z.runs[r].outcome == y.runs[r].outcome
            else
              r in z.runs ==> z.runs[r].attempts == 0 && !z.runs[r].moved && z.runs[r].outcome.None?
  {
    if !step.Append? && step.c in y.conns { assert ConnInv(y, step.c); }
  }

  lemma CreateEnds(y: Sys, c: nat, fails: bool, r: nat, before: Option<Outcome>)
    requires Inv(y) && Enabled(y, Create(c, fails)) && EndsAs(y, r, before)
    ensures EndsAs(Apply(y, Create(c, fails)), r, before)
  {
    assert ConnInv(y, c);
  }

  lemma MoveEnds(y: Sys, c: nat, fails: bool, r: nat, before: Option<Outcome>)
    requires Inv(y) && Enabled(y, Move(c, fails)) && EndsAs(y, r, before)
    ensures EndsAs(Apply(y, Move(c, fails)), r, before)
  {
    assert ConnInv(y, c);
  }

  lemma PeerGoneEnds(y: Sys, c: nat, r: nat, before: Option<Outcome>)
    requires Inv(y) && Enabled(y, PeerGone(c)) && EndsAs(y, r, before)
    ensures EndsAs(Apply(y, PeerGone(c)), r, if before.Some? then before else EndedBy(y, PeerGone(c), r))
  {
    assert ConnInv(y, c);
    if r in y.runs { assert RunInv(y, r); }
  }

  lemma FrameEndsRuns(y: Sys, c: nat, frame: Frame, r: nat, before: Option<Outcome>)
    requires Inv(y) && Enabled(y, Receive(c, frame)) && EndsAs(y, r, before)
    ensures EndsAs(Apply(y, Receive(c, frame)), r, if before.Some? then before else EndedBy(y, Receive(c, frame), r))
  {
    if r in y.runs {
      FrameEnds(y, c, frame, r);
    } else {
      assert ConnInv(y, c);
      FrameReports(y, c, frame, r);
    }
  }

  lemma StepEnds(y: Sys, step: Step, r: nat, before: Option<Outcome>)
    requires Inv(y) && Enabled(y, step) && EndsAs(y, r, before)
    ensures EndsAs(Apply(y, step), r, if before.Some? then before else EndedBy(y, step, r))
  {
    match step
    case Receive(c, frame) => FrameEndsRuns(y, c, frame, r, before);
    case Create(c, fails) => CreateEnds(y, c, fails, r, before);
    case Move(c, fails) => MoveEnds(y, c, fails, r, before);
    case PeerGone(c) => PeerGoneEnds(y, c, r, before);
    case _ => RecordsStay(y, step, r);
  }

  /**
   Over any run of the system, a run ends as its terminal frame said, or as a crash when its peer went first, and is
   never said to end otherwise; only an ended run is recorded, and only a finish moves the cursor.
   */
  lemma {:induction false} RunsEndAsTheyWereTold(states: seq<Sys>, steps: seq<Step>, n: nat, r: nat)
    requires IsRun(states, steps) && n < |states|
    ensures EndsAs(states[n], r, Ending(states, steps, n, r))
  {
    if n > 0 {
      RunsEndAsTheyWereTold(states, steps, n - 1, r);
      RunKeepsInv(states, steps, n - 1);
      StepEnds(states[n - 1], steps[n - 1], r, Ending(states, steps, n - 1, r));
    }
  }

  // ------------------------------------------------------------------ when the loops end

  /** The step ends the connection's delivery loop: its send failed, it was cancelled, or it never had one. */
  predicate EndsDelivery(step: Step, c: nat) {
    step == SendFail(c) || step == SeeCancel(c) || step == Connect(c, false)
  }

  predicate HasEnded(y: Sys, c: nat) {
    c in y.conns && y.conns[c].deliver.Ended?
  }

  predicate HasLostItsPeer(y: Sys, c: nat) {
    c in y.conns && (y.conns[c].reader.Closed? || (y.conns[c].reader.Recording? && y.conns[c].reader.final))
  }

  lemma FrameLeavesLoops(y: Sys, c: nat, frame: Frame, k: nat)
    requires Enabled(y, Receive(c, frame))
    ensures var z := Apply(y, Receive(c, frame));
            (HasEnded(z, k) <==> HasEnded(y, k)) && (HasLostItsPeer(z, k) <==> HasLostItsPeer(y, k))
  {
  }

  lemma StepEndsDelivery(y: Sys, step: Step, c: nat)
    requires Enabled(y, step)
    ensures HasEnded(Apply(y, step), c) <==> HasEnded(y, c) || EndsDelivery(step, c)
  {
    if step.Receive? { FrameLeavesLoops(y, step.c, step.frame, c); }
  }

  lemma StepLosesPeer(y: Sys, step: Step, c: nat)
    requires Enabled(y, step)
    ensures HasLostItsPeer(Apply(y, step), c) <==> HasLostItsPeer(y, c) || step == PeerGone(c)
  {
    if step.Receive? { FrameLeavesLoops(y, step.c, step.frame, c); }
  }

  /**
   Over any run a delivery loop has ended exactly when a send of it failed or it was cancelled, whatever reads failed
   before; and a read loop has stopped reading for good exactly when its peer has gone.
   */
  lemma {:induction false} LoopsEndOnlyWhen(states: seq<Sys>, steps: seq<Step>, n: nat, c: nat)
    requires IsRun(states, steps) && n < |states|
    ensures HasEnded(states[n], c) <==> exists i :: 0 <= i < n && EndsDelivery(steps[i], c)
    ensures HasLostItsPeer(states[n], c) <==> exists i :: 0 <= i < n && steps[i] == PeerGone(c)
  {
    if n > 0 {
      LoopsEndOnlyWhen(states, steps, n - 1, c);
      StepEndsDelivery(states[n - 1], steps[n - 1], c);
      StepLosesPeer(states[n - 1], steps[n - 1], c);
    }
  }
}
