/**
 The two sliding-window limiters. Both forget old hits as they go; each is proved against the history in which every
 hit is kept for ever, under a clock that does not go back.
 */
module Limiters {

  // ------------------------------------------------------------------ windows

  /** The hits younger than a window, in order. */
  function Within(times: seq<int>, now: int, window: int): seq<int> {
    if times == [] then []
    else
      var last := times[|times| - 1];
      Within(times[..|times| - 1], now, window) + if now - last < window then [last] else []
  }

  function Of(hits: map<string, seq<int>>, key: string): seq<int> {
    if key in hits then hits[key] else []
  }

  predicate Sorted(times: seq<int>) {
    forall i, j :: 0 <= i < j < |times| ==> times[i] <= times[j]
  }

  predicate UpTo(times: seq<int>, clock: int) {
    forall i :: 0 <= i < |times| ==> times[i] <= clock
  }

  predicate Stale(times: seq<int>, now: int, window: int) {
    forall i :: 0 <= i < |times| ==> now - times[i] >= window
  }

  predicate Fresh(times: seq<int>, now: int, window: int) {
    forall i :: 0 <= i < |times| ==> now - times[i] < window
  }

  lemma {:induction false} WithinAppend(a: seq<int>, b: seq<int>, now: int, window: int)
    ensures Within(a + b, now, window) == Within(a, now, window) + Within(b, now, window)
    decreases |b|
  {
    if b == [] {
      assert a + b == a;
    } else {
      WithinAppend(a, b[..|b| - 1], now, window);
      assert (a + b)[..|a + b| - 1] == a + b[..|b| - 1];
    }
  }

  lemma {:induction false} StaleIsOut(times: seq<int>, now: int, window: int)
    requires Stale(times, now, window)
    ensures Within(times, now, window) == []
    decreases |times|
  {
    if times != [] { StaleIsOut(times[..|times| - 1], now, window); }
  }

  lemma {:induction false} FreshIsIn(times: seq<int>, now: int, window: int)
    requires Fresh(times, now, window)
    ensures Within(times, now, window) == times
    decreases |times|
  {
    if times != [] { FreshIsIn(times[..|times| - 1], now, window); }
  }

  lemma SplitAt(times: seq<int>, i: nat, now: int, window: int)
    requires i <= |times| && Stale(times[..i], now, window) && Fresh(times[i..], now, window)
    ensures Within(times, now, window) == times[i..]
  {
    assert times == times[..i] + times[i..];
    WithinAppend(times[..i], times[i..], now, window);
    StaleIsOut(times[..i], now, window);
    FreshIsIn(times[i..], now, window);
  }

  /** What a later, or equal, instant keeps is kept from what an earlier one kept. */
  lemma {:induction false} WithinTwice(times: seq<int>, earlier: int, now: int, window: int)
    requires earlier <= now
    ensures Within(Within(times, earlier, window), now, window) == Within(times, now, window)
    decreases |times|
  {
    if times != [] {
      var front, last := times[..|times| - 1], times[|times| - 1];
      WithinTwice(front, earlier, now, window);
      if earlier - last < window {
        WithinAppend(Within(front, earlier, window), [last], now, window);
        assert [last][..0] == [];
      } else {
        assert Within(times, earlier, window) == Within(front, earlier, window);
      }
    }
  }

  /** Of hits in order, the young ones are the last ones. */
  lemma {:induction false} Boundary(times: seq<int>, now: int, window: int) returns (i: nat)
    requires Sorted(times)
    ensures i <= |times| && Stale(times[..i], now, window) && Fresh(times[i..], now, window)
    ensures Within(times, now, window) == times[i..]
    decreases |times|
  {
    i := |times|;
    if times != [] && now - times[|times| - 1] < window {
      i := Boundary(times[..|times| - 1], now, window);
      assert times[..|times| - 1][..i] == times[..i];
      assert forall k :: i <= k < |times| - 1 ==> times[k] == times[..|times| - 1][i..][k - i];
    } else {
      assert forall k :: 0 <= k < |times| ==> times[k] <= times[|times| - 1];
    }
    SplitAt(times, i, now, window);
  }

  // ------------------------------------------------------------------ the specification

  /** Whether one more hit fits in the window ending now. */
  predicate Admits(history: seq<int>, now: int, limit: int, window: int) {
    |Within(history, now, window)| < limit
  }

  datatype Quota = Quota(limit: int, remaining: nat, resetAfter: int, reset: int)

  /** What a key's whole history says of its quota. */
  function QuotaOf(history: seq<int>, now: int, limit: int, window: int): Quota {
    var kept := Within(history, now, window);
    Quota(limit, Max(limit - |kept|, 0), if kept == [] then 0 else kept[0] + window - now, if kept == [] then now
          else kept[0] + window)
  }

  function Max(a: int, b: int): int { if a >= b then a else b }

  /** Any hit comes a whole window after the one `limit` places before it. */
  predicate Spaced(history: seq<int>, limit: int, window: int) {
    forall i, j :: 0 <= i < |history| && j == i + Max(limit, 0) < |history| ==> history[j] - history[i] >= window
  }

  /** An admitted hit keeps the spacing. */
  lemma AdmittedKeepsSpacing(history: seq<int>, now: int, limit: int, window: int)
    requires Sorted(history) && UpTo(history, now) && Spaced(history, limit, window) &&
             Admits(history, now, limit, window)
    ensures Spaced(history + [now], limit, window) && Sorted(history + [now])
  {
    var i := Boundary(history, now, window);
    var all := history + [now];
    forall a, b | 0 <= a < |all| && b == a + Max(limit, 0) < |all| ensures all[b] - all[a] >= window {
      if b == |history| {
        assert a < i;
        assert history[..i][a] == history[a];
      }
    }
  }

  /** The hits of a history inside a span of time. */
  function InSpan(history: seq<int>, start: int, end: int): seq<int> {
    if history == [] then []
    else
      var last := history[|history| - 1];
      InSpan(history[..|history| - 1], start, end) + if start <= last < end then [last] else []
  }

  lemma {:induction false} EarlyHitsAreOut(history: seq<int>, k: nat, start: int, end: int)
    requires k <= |history| && forall i :: 0 <= i < k ==> history[i] < start
    ensures |InSpan(history, start, end)| <= |history| - k
    decreases |history|
  {
    if history != [] {
      EarlyHitsAreOut(history[..|history| - 1], if k == |history| then k - 1 else k, start, end);
    }
  }

  /** No window of time, wherever it starts, holds more than `limit` recorded hits. */
  lemma {:induction false} NoWindowHoldsMore(history: seq<int>, limit: int, window: int, start: int)
    requires Sorted(history) && Spaced(history, limit, window)
    ensures |InSpan(history, start, start + window)| <= Max(limit, 0)
    decreases |history|
  {
    if history != [] {
      var n := |history| - 1;
      NoWindowHoldsMore(history[..n], limit, window, start);
      if start <= history[n] < start + window {
        var k := n - Max(limit, 0);
        if k >= 0 {
          assert history[n] - history[k] >= window;
          EarlyHitsAreOut(history, k + 1, start, start + window);
        } else {
          EarlyHitsAreOut(history, 0, start, start + window);
        }
      }
    }
  }

  /** Once refused, the quota's reset is exactly the first instant a retry is admitted. */
  lemma ResetIsTheFirstRetry(history: seq<int>, now: int, limit: int, window: int, t: int)
    requires Sorted(history) && UpTo(history, now) && Spaced(history, limit, window)
    requires !Admits(history, now, limit, window) && limit >= 1 && t >= now
    ensures Admits(history, t, limit, window) <==> t >= QuotaOf(history, now, limit, window).reset
  {
    var i := Boundary(history, now, window);
    var kept := history[i..];
    assert |kept| >= limit;
    assert kept[0] == history[i] && now - history[i] < window;
    var last := |history| - 1;
    if last >= limit {
      assert history[last] - history[last - limit] >= window;
      assert last - limit < i;
    }
    WithinTwice(history, now, t, window);
    if t < kept[0] + window {
      assert Fresh(kept, t, window);
      FreshIsIn(kept, t, window);
    } else {
      var j := Boundary(kept, t, window);
      assert j > 0;
    }
  }

  /** A limit of none refuses with a reset of now, at which no retry is ever admitted. */
  lemma ALimitOfNoneNeverResets(history: seq<int>, now: int, limit: int, window: int)
    requires Spaced(history, limit, window) && UpTo(history, now) && Sorted(history) && limit <= 0
    ensures QuotaOf(history, now, limit, window).reset == now
    ensures forall t :: !Admits(history, t, limit, window)
  {
    var i := Boundary(history, now, window);
    assert i < |history| ==> now - history[i..][0] < window;
  }

  // ------------------------------------------------------------------ the limiter of posts

  /** The hits kept are the end of the history; the rest is out of every later window. */
  ghost predicate Agrees(kept: seq<int>, history: seq<int>, clock: int, window: int) {
    && |kept| <= |history|
    && history[|history| - |kept|..] == kept
    && Stale(history[..|history| - |kept|], clock, window)
  }

  ghost predicate KeyOk(kept: seq<int>, history: seq<int>, clock: int, limit: int, window: int) {
    Sorted(history) && UpTo(history, clock) && Spaced(history, limit, window) && Agrees(kept, history, clock, window)
  }

  lemma LaterAgrees(kept: seq<int>, history: seq<int>, clock: int, now: int, limit: int, window: int)
    requires KeyOk(kept, history, clock, limit, window) && clock <= now
    ensures KeyOk(kept, history, now, limit, window)
  {
  }

  /** Kept hits and whole history put the same hits in the window. */
  lemma SameWindow(kept: seq<int>, history: seq<int>, now: int, limit: int, window: int)
    requires KeyOk(kept, history, now, limit, window)
    ensures Within(kept, now, window) == Within(history, now, window)
  {
    var n := |history| - |kept|;
    assert history == history[..n] + kept;
    StaleIsOut(history[..n], now, window);
    WithinAppend(history[..n], kept, now, window);
  }

  lemma KeptIsSorted(kept: seq<int>, history: seq<int>, now: int, limit: int, window: int)
    requires KeyOk(kept, history, now, limit, window)
    ensures Sorted(kept)
  {
    var n := |history| - |kept|;
    assert forall k :: 0 <= k < |kept| ==> kept[k] == history[n..][k] == history[n + k];
  }

  lemma TrimmedAgrees(history: seq<int>, now: int, limit: int, window: int)
    requires Sorted(history) && UpTo(history, now) && Spaced(history, limit, window)
    ensures KeyOk(Within(history, now, window), history, now, limit, window)
  {
    var i := Boundary(history, now, window);
  }

  lemma HitKeepsAgreement(kept: seq<int>, history: seq<int>, now: int, limit: int, window: int)
    requires KeyOk(kept, history, now, limit, window) && Admits(history, now, limit, window)
    ensures KeyOk(kept + [now], history + [now], now, limit, window)
  {
    AdmittedKeepsSpacing(history, now, limit, window);
    var n := |history| - |kept|;
    assert (history + [now])[..n] == history[..n];
    assert (history + [now])[n..] == history[n..] + [now];
  }

  /** The latest hit, when there is one, taken back. */
  function Returned(times: seq<int>): seq<int> {
    if times == [] then [] else times[..|times| - 1]
  }

  lemma ReturnKeepsAgreement(kept: seq<int>, history: seq<int>, clock: int, limit: int, window: int)
    requires KeyOk(kept, history, clock, limit, window)
    ensures KeyOk(Returned(kept), Returned(history), clock, limit, window)
  {
    var n := |history| - |kept|;
    if kept != [] {
      assert Returned(history)[n..] == Returned(kept);
      assert Returned(history)[..n] == history[..n];
    } else if history != [] {
      assert history[..n] == history;
    }
  }

  ghost predicate AllOk(hits: map<string, seq<int>>, history: map<string, seq<int>>, clock: int, limit: int,
                        window: int) {
    forall key :: KeyOk(Of(hits, key), Of(history, key), clock, limit, window)
  }

  lemma LaterIsOk(hits: map<string, seq<int>>, history: map<string, seq<int>>, clock: int, now: int, limit: int,
                  window: int)
    requires AllOk(hits, history, clock, limit, window) && clock <= now
    ensures AllOk(hits, history, now, limit, window)
  {
    forall key ensures KeyOk(Of(hits, key), Of(history, key), now, limit, window) {
      LaterAgrees(Of(hits, key), Of(history, key), clock, now, limit, window);
    }
  }

  /** A key whose hits agree with its history may change, the others staying. */
  lemma ChangedIsOk(hits: map<string, seq<int>>, history: map<string, seq<int>>, hits': map<string, seq<int>>,
                    history': map<string, seq<int>>,
                    key: string, clock: int, limit: int, window: int)
    requires AllOk(hits, history, clock, limit, window)
    requires forall k :: k != key ==> Of(hits', k) == Of(hits, k) && Of(history', k) == Of(history, k)
    requires KeyOk(Of(hits', key), Of(history', key), clock, limit, window)
    ensures AllOk(hits', history', clock, limit, window)
  {
    forall k ensures KeyOk(Of(hits', k), Of(history', k), clock, limit, window) {
      assert KeyOk(Of(hits, k), Of(history, k), clock, limit, window);
    }
  }

  /** Forgetting what has left the window keeps a key's hits in agreement. */
  lemma TrimIsOk(hits: map<string, seq<int>>, history: map<string, seq<int>>, key: string, now: int, limit: int,
                 window: int)
    requires AllOk(hits, history, now, limit, window)
    ensures Sorted(Of(hits, key))
    ensures Within(Of(hits, key), now, window) == Within(Of(history, key), now, window)
    ensures AllOk(hits[key := Within(Of(hits, key), now, window)], history, now, limit, window)
    ensures Within(Of(hits, key), now, window) == [] ==> AllOk(hits - {key}, history, now, limit, window)
  {
    var times, all := Of(hits, key), Of(history, key);
    assert KeyOk(times, all, now, limit, window);
    KeptIsSorted(times, all, now, limit, window);
    SameWindow(times, all, now, limit, window);
    TrimmedAgrees(all, now, limit, window);
    ChangedIsOk(hits, history, hits[key := Within(times, now, window)], history, key, now, limit, window);
    if Within(times, now, window) == [] { ChangedIsOk(hits, history, hits - {key}, history, key, now, limit, window); }
  }

  lemma HitIsOk(hits: map<string, seq<int>>, history: map<string, seq<int>>, key: string, now: int, limit: int,
                window: int)
    requires AllOk(hits, history, now, limit, window) && Admits(Of(history, key), now, limit, window)
    ensures AllOk(hits[key := Of(hits, key) + [now]], history[key := Of(history, key) + [now]], now, limit, window)
  {
    assert KeyOk(Of(hits, key), Of(history, key), now, limit, window);
    HitKeepsAgreement(Of(hits, key), Of(history, key), now, limit, window);
    ChangedIsOk(hits, history, hits[key := Of(hits, key) + [now]], history[key := Of(history, key) + [now]], key, now,
                limit, window);
  }

  lemma ReturnIsOk(hits: map<string, seq<int>>, history: map<string, seq<int>>, hits': map<string, seq<int>>,
                   key: string, clock: int, limit: int, window: int)
    requires AllOk(hits, history, clock, limit, window)
    requires forall k :: Of(hits', k) == if k == key then Returned(Of(hits, k)) else Of(hits, k)
    ensures AllOk(hits', history[key := Returned(Of(history, key))], clock, limit, window)
  {
    assert KeyOk(Of(hits, key), Of(history, key), clock, limit, window);
    ReturnKeepsAgreement(Of(hits, key), Of(history, key), clock, limit, window);
    ChangedIsOk(hits, history, hits', history[key := Returned(Of(history, key))], key, clock, limit, window);
  }

  /** Every later instant at which a refused key is admitted. */
  ghost predicate RetriedFrom(history: seq<int>, now: int, limit: int, window: int, reset: int) {
    forall t :: t >= now ==> (Admits(history, t, limit, window) <==> limit >= 1 && t >= reset)
  }

  lemma RefusalIsExact(hits: map<string, seq<int>>, history: map<string, seq<int>>, key: string, now: int, limit: int,
                       window: int)
    requires AllOk(hits, history, now, limit, window) && !Admits(Of(history, key), now, limit, window)
    ensures RetriedFrom(Of(history, key), now, limit, window, QuotaOf(Of(history, key), now, limit, window).reset)
  {
    assert KeyOk(Of(hits, key), Of(history, key), now, limit, window);
    if limit >= 1 {
      forall t | t >= now ensures Admits(Of(history, key), t, limit, window) <==>
                                  t >= QuotaOf(Of(history, key), now, limit, window).reset {
        ResetIsTheFirstRetry(Of(history, key), now, limit, window, t);
      }
    }
  }

  /** A key's hits once those that have left the window are forgotten. */
  function Trimmed(hits: map<string, seq<int>>, key: string, now: int, window: int): map<string, seq<int>> {
    var kept := Within(Of(hits, key), now, window);
    if |kept| < |Of(hits, key)| then hits[key := kept] else hits
  }

  /** The keys with a hit in the window, as they are. */
  function Used(hits: map<string, seq<int>>, now: int, window: int): map<string, seq<int>> {
    map k | k in hits && Within(hits[k], now, window) != [] :: hits[k]
  }

  /** A sweep under way: the keys left to look at, and of the others exactly the used ones. */
  ghost predicate Forgetting(was: map<string, seq<int>>, hits: map<string, seq<int>>, todo: set<string>, now: int,
                             window: int) {
    && todo <= hits.Keys <= was.Keys
    && (forall k :: k in hits ==> hits[k] == was[k])
    && (forall k :: k in was && k !in todo ==> (k in hits <==> k in Used(was, now, window)))
  }

  lemma ForgetOne(was: map<string, seq<int>>, hits: map<string, seq<int>>, todo: set<string>, key: string, now: int,
                  window: int)
    requires Forgetting(was, hits, todo, now, window) && key in todo
    ensures if Within(hits[key], now, window) == [] then Forgetting(was, hits - {key}, todo - {key}, now, window)
            else Forgetting(was, hits, todo - {key}, now, window)
  {
  }

  lemma ForgotAll(was: map<string, seq<int>>, hits: map<string, seq<int>>, now: int, window: int)
    requires Forgetting(was, hits, {}, now, window)
    ensures hits == Used(was, now, window)
  {
  }

  lemma SortedAt(hits: map<string, seq<int>>, history: map<string, seq<int>>, key: string, now: int, limit: int,
                 window: int)
    requires AllOk(hits, history, now, limit, window)
    ensures Sorted(Of(hits, key))
  {
    assert KeyOk(Of(hits, key), Of(history, key), now, limit, window);
    KeptIsSorted(Of(hits, key), Of(history, key), now, limit, window);
  }

  /** A key with no hit in the window may be forgotten: its history has none there either. */
  lemma UsedIsOk(hits: map<string, seq<int>>, history: map<string, seq<int>>, now: int, limit: int, window: int)
    requires AllOk(hits, history, now, limit, window)
    ensures AllOk(Used(hits, now, window), history, now, limit, window)
  {
    var used := Used(hits, now, window);
    forall key ensures KeyOk(Of(used, key), Of(history, key), now, limit, window) {
      assert KeyOk(Of(hits, key), Of(history, key), now, limit, window);
      if Of(used, key) != Of(hits, key) {
        SameWindow(Of(hits, key), Of(history, key), now, limit, window);
        TrimmedAgrees(Of(history, key), now, limit, window);
      }
    }
  }

  class Limiter {
    const limit: int
    const window: int
    var hits: map<string, seq<int>>
    var lastSweep: int
    /** Every hit taken and not given back. */
    ghost var history: map<string, seq<int>>
    ghost var clock: int

    ghost predicate Valid()
      reads this
    {
      AllOk(hits, history, clock, limit, window)
    }

    constructor (limit: int, window: int)
      ensures Valid() && history == map[] && this.limit == limit && this.window == window
    {
      this.limit, this.window, hits, lastSweep, history, clock := limit, window, map[], 0, map[], 0;
    }

    /** Skips the hits that have left the window. */
    method Recent(times: seq<int>, now: int) returns (kept: seq<int>)
      requires Sorted(times)
      ensures kept == Within(times, now, window)
    {
      var i := 0;
      while i < |times| && now - times[i] >= window
        invariant 0 <= i <= |times|
        invariant Stale(times[..i], now, window)
      {
        i := i + 1;
      }
      SplitAt(times, i, now, window);
      kept := times[i..];
    }

    /** Forgets a key's hits that have left the window; what is left is what the whole history has there. */
    method Trim(key: string, now: int) returns (kept: seq<int>)
      requires Valid() && now == clock
      modifies this`hits
      ensures Valid()
      ensures kept == Within(Of(history, key), now, window)
      ensures hits == Trimmed(old(hits), key, now, window)
    {
      TrimIsOk(hits, history, key, now, limit, window);
      var times := Of(hits, key);
      kept := Recent(times, now);
      if |kept| < |times| {
        hits := hits[key := kept];
      }
    }

    /** A key's quota by its whole history. */
    method QuotaAt(key: string, now: int) returns (q: Quota)
      requires Valid() && now == clock
      modifies this`hits
      ensures Valid()
      ensures q == QuotaOf(Of(history, key), now, limit, window)
    {
      var kept := Trim(key, now);
      q := Quota(limit, Max(limit - |kept|, 0), 0, now);
      if |kept| > 0 {
        q := q.(resetAfter := kept[0] + window - now, reset := kept[0] + window);
      }
    }

    /** Forgets the keys with no hit left. */
    method Forget(now: int)
      requires Valid() && now == clock
      modifies this`hits
      ensures Valid() && hits == Used(old(hits), now, window)
    {
      UsedIsOk(hits, history, now, limit, window);
      ghost var was := hits;
      var todo := hits.Keys;
      while todo != {}
        invariant Forgetting(was, hits, todo, now, window)
        decreases |todo|
      {
        var key :| key in todo;
        SortedAt(was, history, key, now, limit, window);
        var kept := Recent(hits[key], now);
        ForgetOne(was, hits, todo, key, now, window);
        if |kept| == 0 {
          hits := hits - {key};
        }
        todo := todo - {key};
      }
      ForgotAll(was, hits, now, window);
    }

    /** Forgets them at most once a window. */
    method Sweep(now: int)
      requires Valid() && now == clock
      modifies this`hits, this`lastSweep
      ensures Valid()
      ensures hits == if now - old(lastSweep) < window then old(hits) else Used(old(hits), now, window)
      ensures lastSweep == if now - old(lastSweep) < window then old(lastSweep) else now
    {
      if now - lastSweep < window {
        return;
      }
      lastSweep := now;
      Forget(now);
    }

    /** Moves the clock on, sweeps, and reads a key's quota. */
    method Look(key: string, now: int) returns (q: Quota)
      requires Valid() && clock <= now
      modifies this`hits, this`lastSweep, this`clock
      ensures Valid() && clock == now
      ensures q == QuotaOf(Of(history, key), now, limit, window)
    {
      LaterIsOk(hits, history, clock, now, limit, window);
      clock := now;
      Sweep(now);
      q := QuotaAt(key, now);
    }

    /** Records a hit there is room for. */
    method Hit(key: string, now: int)
      requires Valid() && clock == now && Admits(Of(history, key), now, limit, window)
      modifies this`hits, this`history
      ensures Valid()
      ensures history == old(history)[key := Of(old(history), key) + [now]]
      ensures hits == old(hits)[key := Of(old(hits), key) + [now]]
    {
      HitIsOk(hits, history, key, now, limit, window);
      hits := hits[key := Of(hits, key) + [now]];
      history := history[key := Of(history, key) + [now]];
    }

    /**
     Takes a hit exactly when the whole history leaves room for one, and reports the quota the history gives. A
     refusal's reset is the first instant from now at which the history, left alone, admits a hit; with a limit of
     none it never does.
     */
    method Take(key: string, now: int) returns (q: Quota, ok: bool)
      requires Valid() && clock <= now
      modifies this
      ensures Valid() && clock == now
      ensures ok <==> Admits(Of(old(history), key), now, limit, window)
      ensures history == if ok then old(history)[key := Of(old(history), key) + [now]] else old(history)
      ensures q == QuotaOf(Of(history, key), now, limit, window)
      ensures !ok ==> RetriedFrom(Of(history, key), now, limit, window, q.reset)
    {
      q := Look(key, now);
      ok := q.remaining > 0;
      if !ok {
        RefusalIsExact(hits, history, key, now, limit, window);
        return;
      }
      Hit(key, now);
      q := QuotaAt(key, now);
    }

    /** Gives back a key's latest hit. */
    method Give(key: string)
      requires Valid()
      modifies this
      ensures Valid() && clock == old(clock)
      ensures history == old(history)[key := Returned(Of(old(history), key))]
    {
      ghost var before := hits;
      var n := |Of(hits, key)|;
      if n > 0 {
        hits := hits[key := hits[key][..n - 1]];
      }
      ReturnIsOk(before, history, hits, key, clock, limit, window);
      history := history[key := Returned(Of(history, key))];
    }
  }

  /** Whatever was taken and given back, no window of time holds more than the limit of a key's hits. */
  lemma NoWindowEverHoldsMore(l: Limiter, key: string, start: int)
    requires l.Valid()
    ensures |InSpan(Of(l.history, key), start, start + l.window)| <= Max(l.limit, 0)
  {
    assert KeyOk(Of(l.hits, key), Of(l.history, key), l.clock, l.limit, l.window);
    NoWindowHoldsMore(Of(l.history, key), l.limit, l.window, start);
  }

  // ------------------------------------------------------------------ the limiter of failures

  /** The failures kept and all failures ever put the same ones in the window. */
  ghost predicate SameNow(failures: map<string, seq<int>>, history: map<string, seq<int>>, clock: int, window: int) {
    forall addr :: Within(Of(failures, addr), clock, window) == Within(Of(history, addr), clock, window)
  }

  lemma SameLater(failures: map<string, seq<int>>, history: map<string, seq<int>>, clock: int, now: int, window: int)
    requires SameNow(failures, history, clock, window) && clock <= now
    ensures SameNow(failures, history, now, window)
  {
    forall k ensures Within(Of(failures, k), now, window) == Within(Of(history, k), now, window) {
      WithinTwice(Of(failures, k), clock, now, window);
      WithinTwice(Of(history, k), clock, now, window);
    }
  }

  lemma PruneKeepsSame(failures: map<string, seq<int>>, history: map<string, seq<int>>, key: string, now: int,
                       window: int)
    requires SameNow(failures, history, now, window)
    ensures var kept := Within(Of(failures, key), now, window);
            && SameNow(failures[key := kept], history, now, window)
            && (kept == [] ==> SameNow(failures - {key}, history, now, window))
  {
    WithinTwice(Of(failures, key), now, now, window);
    var kept := Within(Of(failures, key), now, window);
    forall k ensures Within(Of(failures[key := kept], k), now, window) == Within(Of(history, k), now, window) {
      assert Within(Of(failures, k), now, window) == Within(Of(history, k), now, window);
    }
    if kept == [] {
      forall k ensures Within(Of(failures - {key}, k), now, window) == Within(Of(history, k), now, window) {
        assert Within(Of(failures, k), now, window) == Within(Of(history, k), now, window);
      }
    }
  }

  lemma FailureKeepsSame(failures: map<string, seq<int>>, history: map<string, seq<int>>, key: string, now: int,
                         window: int)
    requires SameNow(failures, history, now, window)
    ensures SameNow(failures[key := Of(failures, key) + [now]], history[key := Of(history, key) + [now]], now, window)
  {
    WithinAppend(Of(failures, key), [now], now, window);
    WithinAppend(Of(history, key), [now], now, window);
    var failures', history' := failures[key := Of(failures, key) + [now]], history[key := Of(history, key) + [now]];
    forall k ensures Within(Of(failures', k), now, window) == Within(Of(history', k), now, window) {
      assert Within(Of(failures, k), now, window) == Within(Of(history, k), now, window);
    }
  }

  /** Every address with a failure in the window, with exactly those. */
  function Pruned(failures: map<string, seq<int>>, now: int, window: int): map<string, seq<int>> {
    map k | k in failures && Within(failures[k], now, window) != [] :: Within(failures[k], now, window)
  }

  /** A pruning under way: the addresses left to look at as they were, the others pruned. */
  ghost predicate Pruning(was: map<string, seq<int>>, failures: map<string, seq<int>>, todo: set<string>, now: int,
                          window: int) {
    && todo <= failures.Keys <= was.Keys
    && (forall k :: k in todo ==> failures[k] == was[k])
    && (forall k :: k in was && k !in todo ==> (k in failures <==> k in Pruned(was, now, window)))
    && (forall k :: k in failures && k !in todo ==> failures[k] == Within(was[k], now, window))
  }

  lemma PruneOne(was: map<string, seq<int>>, failures: map<string, seq<int>>, todo: set<string>, key: string, now: int,
                 window: int)
    requires Pruning(was, failures, todo, now, window) && key in todo
    ensures var kept := Within(failures[key], now, window);
            if kept == [] then Pruning(was, failures - {key}, todo - {key}, now, window)
            else Pruning(was, failures[key := kept], todo - {key}, now, window)
  {
  }

  lemma PrunedAll(was: map<string, seq<int>>, failures: map<string, seq<int>>, now: int, window: int)
    requires Pruning(was, failures, {}, now, window)
    ensures failures == Pruned(was, now, window)
  {
  }

  class FailureLimiter {
    const max: int
    const window: int
    var failures: map<string, seq<int>>
    /** Every failure ever. */
    ghost var history: map<string, seq<int>>
    ghost var clock: int

    ghost predicate Valid()
      reads this
    {
      SameNow(failures, history, clock, window)
    }

    constructor (max: int, window: int)
      ensures Valid() && history == map[] && this.max == max && this.window == window
    {
      this.max, this.window, failures, history, clock := max, window, map[], map[], 0;
    }

    method Recent(times: seq<int>, now: int) returns (kept: seq<int>)
      ensures kept == Within(times, now, window)
    {
      kept := [];
      for i := 0 to |times|
        invariant kept == Within(times[..i], now, window)
      {
        assert times[..i + 1][..i] == times[..i];
        if now - times[i] < window {
          kept := kept + [times[i]];
        }
      }
      assert times[..|times|] == times;
    }

    /** Blocked exactly when at least `max` of all failures lie in the window. */
    method Blocked(addr: string, now: int) returns (blocked: bool)
      requires Valid() && clock <= now
      ensures blocked <==> |Within(Of(history, addr), now, window)| >= max
    {
      SameLater(failures, history, clock, now, window);
      var kept := Recent(Of(failures, addr), now);
      blocked := |kept| >= max;
    }

    /** Records one failure, pruning every address. */
    method Fail(addr: string, now: int)
      requires Valid() && clock <= now
      modifies this
      ensures Valid() && clock == now
      ensures history == old(history)[addr := Of(old(history), addr) + [now]]
      ensures var pruned := Pruned(old(failures), now, window); failures == pruned[addr := Of(pruned, addr) + [now]]
    {
      SameLater(failures, history, clock, now, window);
      clock := now;
      var todo := failures.Keys;
      while todo != {}
        invariant Valid() && clock == now && history == old(history)
        invariant Pruning(old(failures), failures, todo, now, window)
        decreases |todo|
      {
        var key :| key in todo;
        PruneOne(old(failures), failures, todo, key, now, window);
        todo := todo - {key};
        PruneKeepsSame(failures, history, key, now, window);
        var kept := Recent(failures[key], now);
        if |kept| > 0 {
          failures := failures[key := kept];
        } else {
          failures := failures - {key};
        }
      }
      PrunedAll(old(failures), failures, now, window);
      FailureKeepsSame(failures, history, addr, now, window);
      failures := failures[addr := Of(failures, addr) + [now]];
      history := history[addr := Of(history, addr) + [now]];
    }
  }
}
